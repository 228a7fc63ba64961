/** The Python prototype's level estimator and smoother: RMS, windowed decibel
    levels, the moving-average filter, the threshold classifier, and the band,
    rolloff and argmax parts of its spectral feature extraction. numpy's array
    operations are written out over sequences. */
module AudioProcessor {

  import opened Outcomes
  import opened JsNumbers
  import opened SeqMath
  import opened Transcendentals
  import RealFacts
  import FftProcessor
  import NoiseClassifier

  /** Added to the RMS before the logarithm. */
  const LEVEL_EPSILON: real := 0.0000000001

  /** Calibration offset added to 20 log10(rms). */
  const CALIBRATION_OFFSET: real := 94.0

  const DEFAULT_LEVEL_WINDOW: int := 4096
  const DEFAULT_FILTER_WINDOW: int := 10

  // ---------------------------------------------------------------------------
  // Integer helpers

  /** Python's `a // b`, which rounds toward negative infinity. */
  function PyFloorDiv(a: int, b: int): (q: int)
    requires b != 0
    ensures 0 < b ==> q * b <= a < q * b + b
    ensures b < 0 ==> q * b + b < a <= q * b
  {
    if 0 < b then a / b else (-a) / (-b)
  }

  lemma MulMonotone(a: int, b: int, c: int)
    requires a <= b && 0 <= c
    ensures a * c <= b * c
  {
  }

  // ---------------------------------------------------------------------------
  // RMS

  function Squares(s: seq<real>): (r: seq<real>)
    ensures |r| == |s|
    ensures forall i :: 0 <= i < |s| ==> r[i] == s[i] * s[i]
  {
    seq(|s|, i requires 0 <= i < |s| => s[i] * s[i])
  }

  /** `sqrt(mean(x**2))` of a non-empty buffer. */
  function RmsOf(sqrt: real -> real, audio: seq<real>): real
    requires 0 < |audio|
  {
    sqrt(Sum(Squares(audio)) / |audio| as real)
  }

  /** `calculate_rms`: numpy's mean of an empty array is NaN. */
  function CalculateRms(sqrt: real -> real, audio: seq<real>): (r: Number)
    ensures r.NaN? <==> |audio| == 0
    ensures 0 < |audio| ==> r == Finite(RmsOf(sqrt, audio))
    ensures SqrtLaws(sqrt) && r.Finite? ==> 0.0 <= r.value
  {
    if |audio| == 0 then NaN
    else
      RmsNonNegative(sqrt, audio);
      Finite(RmsOf(sqrt, audio))
  }

  lemma MeanSquareNonNegative(audio: seq<real>)
    requires 0 < |audio|
    ensures 0.0 <= Sum(Squares(audio)) / |audio| as real
  {
    var sq := Squares(audio);
    forall i | 0 <= i < |audio|
      ensures 0.0 <= sq[i]
    {
      var a := if audio[i] < 0.0 then -audio[i] else audio[i];
      RealFacts.NonNegativeProduct(a, a);
      assert audio[i] * audio[i] == a * a;
    }
    SumNonNegative(sq);
    RealFacts.NonNegativeProduct(Sum(sq), 1.0 / |audio| as real);
  }

  lemma RmsNonNegative(sqrt: real -> real, audio: seq<real>)
    requires 0 < |audio|
    ensures SqrtLaws(sqrt) ==> 0.0 <= RmsOf(sqrt, audio)
  {
    MeanSquareNonNegative(audio);
  }

  /** A silent buffer has RMS 0. */
  lemma RmsOfSilence(sqrt: real -> real, audio: seq<real>)
    requires SqrtLaws(sqrt) && 0 < |audio|
    requires forall i :: 0 <= i < |audio| ==> audio[i] == 0.0
    ensures RmsOf(sqrt, audio) == 0.0
  {
    SumOfZeros(Squares(audio));
    SqrtOfZero(sqrt);
  }

  /** The mean square of samples of magnitude `c` is `c * c`. */
  lemma MeanSquareOfConstantMagnitude(audio: seq<real>, c: real)
    requires 0 < |audio|
    requires forall i :: 0 <= i < |audio| ==> audio[i] == c || audio[i] == -c
    ensures Sum(Squares(audio)) / |audio| as real == c * c
  {
    var sq := Squares(audio);
    var n := |audio| as real;
    var cc := c * c;
    forall i | 0 <= i < |sq|
      ensures sq[i] == cc
    {
      NegatedSquare(c);
    }
    SumOfConstant(sq, cc);
    assert Sum(sq) == n * cc;
    RealFacts.CancelFactor(n, cc);
  }

  /** A buffer whose samples all have magnitude `c` has RMS `c`. */
  lemma RmsOfConstantMagnitude(sqrt: real -> real, audio: seq<real>, c: real)
    requires SqrtLaws(sqrt) && 0 < |audio| && 0.0 <= c
    requires forall i :: 0 <= i < |audio| ==> audio[i] == c || audio[i] == -c
    ensures RmsOf(sqrt, audio) == c
  {
    MeanSquareOfConstantMagnitude(audio, c);
    SqrtOfSquare(sqrt, c);
  }

  lemma NegatedSquare(c: real)
    ensures (-c) * (-c) == c * c
  {
  }

  /** The square wave +-0.1 has RMS 0.1. */
  lemma RmsOfSquareWave(sqrt: real -> real)
    requires SqrtLaws(sqrt)
    ensures RmsOf(sqrt, [0.1, -0.1, 0.1, -0.1]) == 0.1
  {
    RmsOfConstantMagnitude(sqrt, [0.1, -0.1, 0.1, -0.1], 0.1);
  }

  // ---------------------------------------------------------------------------
  // Decibel levels

  /** `20 * log10(rms + 1e-10) + 94`, with no clamping. */
  function DecibelsOfRms(log10: real -> real, rms: real): (db: real)
    ensures Log10Laws(log10) && 0.0 <= rms ==> -106.0 <= db
  {
    20.0 * log10(rms + LEVEL_EPSILON) + CALIBRATION_OFFSET
  }

  /** A silent window reads -106 dB: the level is not clamped to [0, 120]. */
  lemma SilentWindowIsMinus106(log10: real -> real)
    requires Log10Laws(log10)
    ensures DecibelsOfRms(log10, 0.0) == -106.0
    ensures DecibelsOfRms(log10, 0.0) < 0.0
  {
  }

  /** A louder window never reads lower. */
  lemma DecibelsMonotone(log10: real -> real, a: real, b: real)
    requires Log10Laws(log10)
    requires 0.0 <= a <= b
    ensures DecibelsOfRms(log10, a) <= DecibelsOfRms(log10, b)
  {
    assert log10(a + LEVEL_EPSILON) <= log10(b + LEVEL_EPSILON);
  }

  /** The input, zero-padded at the end to `windowSize` when shorter. */
  function PadToWindow(audio: seq<real>, windowSize: int): (r: seq<real>)
    ensures |audio| < windowSize ==> |r| == windowSize
    ensures windowSize <= |audio| ==> r == audio
    ensures forall i :: 0 <= i < |r| ==> r[i] == if i < |audio| then audio[i] else 0.0
  {
    if |audio| < windowSize then audio + seq(windowSize - |audio|, _ => 0.0) else audio
  }

  /** The level of the window of `size` samples starting at `start`. */
  function WindowLevel(sqrt: real -> real, log10: real -> real, signal: seq<real>, start: nat, size: nat): real
    requires 1 <= size && start + size <= |signal|
  {
    DecibelsOfRms(log10, RmsOf(sqrt, signal[start..start + size]))
  }

  /** The windows `calculate_decibels` may emit: `len // hop - 1` of them. */
  function WindowLimit(length: nat, windowSize: int): int
    requires 2 <= windowSize
  {
    PyFloorDiv(length, PyFloorDiv(windowSize, 2)) - 1
  }

  datatype LevelError = ZeroDivision

  /** `calculate_decibels`. A window size of 0 or 1 makes the hop `window_size // 2`
      zero, and the division by it raises. */
  method CalculateDecibels(sqrt: real -> real, log10: real -> real, audio: seq<real>, windowSize: int)
    returns (r: Result<seq<real>, LevelError>)
    ensures r.Err? <==> windowSize == 0 || windowSize == 1
    ensures windowSize < 0 ==> r == Ok([])
    ensures 2 <= windowSize ==>
      var padded := PadToWindow(audio, windowSize);
      var hop := windowSize / 2;
      && r.Ok?
      && 1 <= |r.value| <= WindowLimit(|padded|, windowSize)
      && (|r.value| == WindowLimit(|padded|, windowSize) || |padded| < |r.value| * hop + windowSize)
      && (windowSize % 2 == 0 ==> |r.value| == WindowLimit(|padded|, windowSize))
      && (forall k :: 0 <= k < |r.value| ==>
            && k * hop + windowSize <= |padded|
            && r.value[k] == WindowLevel(sqrt, log10, padded, k * hop, windowSize))
  {
    var padded := PadToWindow(audio, windowSize);
    var hop := PyFloorDiv(windowSize, 2);
    if hop == 0 {
      return Err(ZeroDivision);
    }
    var numWindows := PyFloorDiv(|padded|, hop) - 1;
    if windowSize < 0 {
      assert numWindows < 0 by {
        assert hop < 0;
      }
    }
    var values: seq<real> := [];
    var i := 0;
    while i < numWindows
      invariant 0 <= i
      invariant 0 <= numWindows ==> i <= numWindows
      invariant windowSize < 0 ==> i == 0
      invariant |values| == i
      invariant 2 <= windowSize ==> forall k :: 0 <= k < i ==>
        && k * hop + windowSize <= |padded|
        && values[k] == WindowLevel(sqrt, log10, padded, k * hop, windowSize)
    {
      var start := i * hop;
      var end := start + windowSize;
      if end > |padded| {
        if 2 <= windowSize && windowSize % 2 == 0 {
          EvenWindowFits(i, hop, |padded|);
        }
        r := Ok(values);
        return;
      }
      values := values + [WindowLevel(sqrt, log10, padded, start, windowSize)];
      i := i + 1;
    }
    if 2 <= windowSize {
      assert 1 <= numWindows by {
        FirstWindowCounted(|padded|, hop, windowSize);
      }
    }
    r := Ok(values);
  }

  /** With an even window every window in `range(num_windows)` fits. */
  lemma EvenWindowFits(i: int, hop: int, length: nat)
    requires 1 <= hop && 0 <= i < length / hop - 1
    ensures i * hop + 2 * hop <= length
  {
    MulMonotone(i + 2, length / hop, hop);
  }

  /** The padded signal holds at least one window, and `num_windows` is at
      least 1. */
  lemma FirstWindowCounted(length: nat, hop: int, windowSize: int)
    requires 2 <= windowSize && hop == windowSize / 2 && windowSize <= length
    ensures 1 <= length / hop - 1
  {
    MulMonotone(2, length / hop + 1, hop);
  }

  /** With the default window of 4096 samples the hop is 2048, at least one window
      is counted, and every counted window lies inside a signal already padded to
      the window size. */
  lemma DefaultLevelWindowFits(length: nat)
    requires DEFAULT_LEVEL_WINDOW <= length
    ensures 1 <= WindowLimit(length, DEFAULT_LEVEL_WINDOW) == length / 2048 - 1
    ensures forall i :: 0 <= i < WindowLimit(length, DEFAULT_LEVEL_WINDOW) ==>
      i * 2048 + DEFAULT_LEVEL_WINDOW <= length
  {
  }

  // ---------------------------------------------------------------------------
  // Moving average

  datatype FilterError =
    /** `np.ones` of a negative length. */
    | NegativeDimensions
    /** `np.convolve` with an empty kernel. */
    | EmptyOperand

  function MaxInt(a: int, b: int): int {
    if a >= b then a else b
  }

  function MinInt(a: int, b: int): int {
    if a <= b then a else b
  }

  /** First index of the samples averaged into output `i` of `np.convolve(data,
      ones(n) / n, mode='same')`: the kernel is centred with offset n // 2. */
  function WindowStart(i: int, n: nat): nat {
    MaxInt(0, i - n / 2)
  }

  /** One past the last index averaged into output `i`. */
  function WindowEnd(i: int, n: nat, length: nat): nat {
    MaxInt(0, MinInt(length, i - n / 2 + n))
  }

  /** Output `i` of the 'same' convolution: the in-range samples of the kernel
      window, summed and divided by `n` (samples outside count as 0). */
  function MovingMean(data: seq<real>, n: nat, i: nat): real
    requires 1 <= n && i < |data|
  {
    var lo := WindowStart(i, n);
    var hi := WindowEnd(i, n, |data|);
    if lo < hi then Sum(data[lo..hi]) / n as real else 0.0
  }

  /** `moving_average_filter`. */
  function MovingAverageFilter(data: seq<real>, windowSize: int): (r: Result<seq<real>, FilterError>)
    ensures |data| < windowSize ==> r == Ok(data)
    ensures windowSize < 0 ==> r == Err(NegativeDimensions)
    ensures windowSize == 0 ==> r == Err(EmptyOperand)
    ensures 1 <= windowSize <= |data| ==>
      && r.Ok?
      && |r.value| == |data|
      && (forall i :: 0 <= i < |data| ==> r.value[i] == MovingMean(data, windowSize, i))
  {
    if |data| < windowSize then Ok(data)
    else if windowSize < 0 then Err(NegativeDimensions)
    else if windowSize == 0 then Err(EmptyOperand)
    else Ok(seq(|data|, i requires 0 <= i < |data| => MovingMean(data, windowSize, i)))
  }

  /** The default window of 10 returns shorter data unchanged and otherwise one
      mean per sample. */
  lemma DefaultFilterWindow(data: seq<real>)
    ensures |data| < DEFAULT_FILTER_WINDOW ==> MovingAverageFilter(data, DEFAULT_FILTER_WINDOW) == Ok(data)
    ensures DEFAULT_FILTER_WINDOW <= |data| ==>
      var r := MovingAverageFilter(data, DEFAULT_FILTER_WINDOW);
      && r.Ok? && |r.value| == |data|
      && forall i :: 0 <= i < |data| ==> r.value[i] == MovingMean(data, 10, i)
  {
  }

  /** A window of one sample leaves the data as it is. */
  lemma {:induction false} UnitWindowIsIdentity(data: seq<real>)
    requires 1 <= |data|
    ensures MovingAverageFilter(data, 1) == Ok(data)
  {
    var r := MovingAverageFilter(data, 1).value;
    forall i | 0 <= i < |data|
      ensures r[i] == data[i]
    {
      assert WindowStart(i, 1) == i && WindowEnd(i, 1, |data|) == i + 1;
      assert data[i..i + 1] == [data[i]];
      assert Sum([data[i]]) == data[i] by {
        assert [data[i]][..0] == [];
      }
    }
    assert r == data;
  }

  /** A constant signal comes through unchanged where the whole window lies inside
      the data; toward the edges the missing samples count as zero. */
  lemma ConstantSignalAverage(data: seq<real>, n: nat, i: nat, c: real)
    requires 1 <= n && i < |data|
    requires forall k :: 0 <= k < |data| ==> data[k] == c
    requires n / 2 <= i && i - n / 2 + n <= |data|
    ensures MovingMean(data, n, i) == c
  {
    var lo, hi := i - n / 2, i - n / 2 + n;
    assert WindowStart(i, n) == lo && WindowEnd(i, n, |data|) == hi;
    var w := data[lo..hi];
    SumOfConstant(w, c);
    assert Sum(w) == n as real * c;
  }

  // ---------------------------------------------------------------------------
  // Threshold classifier

  /** `classify_noise_simple`: Python's comparisons are false for NaN, so NaN
      falls through to Noisy. */
  function ClassifyNoiseSimple(averageDb: Number): (c: NoiseClassifier.Category)
    ensures c == NoiseClassifier.Quiet <==> LessThan(averageDb, 50.0)
    ensures c == NoiseClassifier.Normal <==> !LessThan(averageDb, 50.0) && LessThan(averageDb, 70.0)
    ensures c == NoiseClassifier.Noisy <==> !LessThan(averageDb, 70.0)
  {
    if LessThan(averageDb, 50.0) then NoiseClassifier.Quiet
    else if LessThan(averageDb, 70.0) then NoiseClassifier.Normal
    else NoiseClassifier.Noisy
  }

  /** The prototype and the app agree on every level the app accepts. */
  lemma PrototypeAgreesWithApp(averageDb: Number)
    requires NoiseClassifier.IsValidLevel(averageDb)
    ensures NoiseClassifier.ClassifyNoise(averageDb) == Ok(ClassifyNoiseSimple(averageDb))
  {
  }

  /** Outside that domain they part ways: the app rejects NaN, the prototype calls
      it Noisy. */
  lemma PrototypeCallsNaNNoisy()
    ensures ClassifyNoiseSimple(NaN) == NoiseClassifier.Noisy
    ensures NoiseClassifier.ClassifyNoise(NaN).Err?
  {
  }

  // ---------------------------------------------------------------------------
  // Spectral features: the numpy index and mask logic

  /** `rolloff_idx[0]` of `np.where(np.cumsum(norm) >= 0.85)`, or the last index
      when that is empty. */
  function PyRolloffIndex(norm: seq<real>): (i: nat)
    requires 0 < |norm|
    ensures i < |norm|
  {
    FirstReaching(norm, 0)
  }

  function FirstReaching(norm: seq<real>, from: nat): (i: nat)
    requires from < |norm|
    ensures from <= i < |norm|
    decreases |norm| - from
  {
    if FftProcessor.ROLLOFF_SHARE <= FftProcessor.RunningSum(norm, from) || from == |norm| - 1 then from
    else FirstReaching(norm, from + 1)
  }

  lemma {:induction false} FirstReachingIsRolloff(norm: seq<real>, from: nat)
    requires from < |norm|
    requires forall j :: 0 <= j < from ==> FftProcessor.RunningSum(norm, j) < FftProcessor.ROLLOFF_SHARE
    ensures FftProcessor.IsRolloffIndex(norm, FirstReaching(norm, from))
    decreases |norm| - from
  {
    if !(FftProcessor.ROLLOFF_SHARE <= FftProcessor.RunningSum(norm, from) || from == |norm| - 1) {
      FirstReachingIsRolloff(norm, from + 1);
    }
  }

  /** The prototype's rolloff index is the one the app's loop finds. */
  lemma PyRolloffMatchesApp(norm: seq<real>)
    requires 0 < |norm|
    ensures FftProcessor.IsRolloffIndex(norm, PyRolloffIndex(norm))
  {
    FirstReachingIsRolloff(norm, 0);
  }

  /** `np.argmax`: the first index of the maximum. */
  function PyArgmax(m: seq<real>): (i: nat)
    requires 0 < |m|
    ensures i < |m|
    decreases |m|
  {
    if |m| == 1 then 0
    else
      var i := PyArgmax(m[..|m| - 1]);
      if m[|m| - 1] > m[i] then |m| - 1 else i
  }

  /** The prototype's dominant bin is the one the app's loop finds. */
  lemma {:induction false} PyArgmaxMatchesApp(m: seq<real>)
    requires 0 < |m|
    ensures FftProcessor.IsFirstMax(m, PyArgmax(m))
    decreases |m|
  {
    if |m| > 1 {
      var init := m[..|m| - 1];
      PyArgmaxMatchesApp(init);
      assert forall j :: 0 <= j < |init| ==> init[j] == m[j];
    }
  }

  /** The boolean masks of the band sums. */
  predicate InMask(band: FftProcessor.Band, frequency: real) {
    match band
    case LowBand => frequency < 250.0
    case MidBand => 250.0 <= frequency && frequency < 4000.0
    case HighBand => 4000.0 <= frequency
  }

  /** The masks partition the frequencies the way the app's if-chain does. */
  lemma MasksMatchBands(frequency: real, band: FftProcessor.Band)
    ensures InMask(band, frequency) <==> FftProcessor.BandOf(frequency) == band
  {
  }

  /** `np.sum(magnitudes[mask])`. */
  function MaskedSum(f: seq<real>, m: seq<real>, band: FftProcessor.Band): real
    requires |f| == |m|
    decreases |f|
  {
    if |f| == 0 then 0.0
    else MaskedSum(f[..|f| - 1], m[..|m| - 1], band) + (if InMask(band, f[|f| - 1]) then m[|m| - 1] else 0.0)
  }

  lemma {:induction false} MaskedSumIsBandSum(f: seq<real>, m: seq<real>, band: FftProcessor.Band)
    requires |f| == |m|
    ensures MaskedSum(f, m, band) == FftProcessor.BandSum(f, m, band)
    decreases |f|
  {
    if |f| > 0 {
      MaskedSumIsBandSum(f[..|f| - 1], m[..|m| - 1], band);
      MasksMatchBands(f[|f| - 1], band);
    }
  }

  /** The prototype's band ratio, over the three masked sums plus 1e-10. */
  function PyBandRatio(f: seq<real>, m: seq<real>, band: FftProcessor.Band): real
    requires |f| == |m| && AllNonNegative(m)
  {
    var total := MaskedSum(f, m, FftProcessor.LowBand) + MaskedSum(f, m, FftProcessor.MidBand)
      + MaskedSum(f, m, FftProcessor.HighBand);
    PyTotalNonNegative(f, m);
    MaskedSum(f, m, band) / (total + 0.0000000001)
  }

  lemma PyTotalNonNegative(f: seq<real>, m: seq<real>)
    requires |f| == |m| && AllNonNegative(m)
    ensures MaskedSum(f, m, FftProcessor.LowBand) + MaskedSum(f, m, FftProcessor.MidBand)
      + MaskedSum(f, m, FftProcessor.HighBand) == Sum(m)
    ensures 0.0 <= Sum(m)
  {
    MaskedSumIsBandSum(f, m, FftProcessor.LowBand);
    MaskedSumIsBandSum(f, m, FftProcessor.MidBand);
    MaskedSumIsBandSum(f, m, FftProcessor.HighBand);
    FftProcessor.BandSumsPartitionTotal(f, m);
    SumNonNegative(m);
  }

  /** Each prototype ratio is the app's ratio for the same spectrum. */
  lemma PyBandRatiosMatchApp(f: seq<real>, m: seq<real>, band: FftProcessor.Band)
    requires |f| == |m| && AllNonNegative(m)
    ensures PyBandRatio(f, m, band) == FftProcessor.Share(FftProcessor.BandSum(f, m, band), m)
  {
    PyTotalNonNegative(f, m);
    MaskedSumIsBandSum(f, m, band);
  }
}
