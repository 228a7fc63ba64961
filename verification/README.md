# Noise monitor: a Dafny model of the audio core

The noise monitor is a phone app that listens to the room, reports how loud it is,
says what kind of noise it hears, and shares readings on a campus heatmap. A Python
prototype came first and holds the only implemented level estimator and smoother.
This project models the app's core in Dafny:

- **NoiseClassifier** (`NoiseClassifier.ts`): classifies a decibel level as Quiet,
  Normal or Noisy with a confidence score. The enhanced variant adds a noise-type
  description from spectral features and a spectral confidence.
- **FftProcessor** (`FFTProcessor.ts`): validates its input, rounds the transform
  size up to a power of two, and applies the Hamming window and zero padding. It
  runs the recursive radix-2 transform, the real transform and the moduli, lays
  out the frequency bins, and extracts spectral features: the rolloff and dominant
  bins and the three band ratios.
- **AudioProcessor** (`audio_processor.py`): the prototype's RMS, its windowed
  decibel levels, its centred moving average and its threshold classifier. It also
  covers the prototype's rolloff, argmax and band-mask logic, each related to the
  app's version.
- **StorageService** (`StorageService.ts`): the heatmap's decayed weight, the
  query window, the age filter and the per-location aggregation.
- **AudioService** (`AudioService.ts`): the recording-state guards, the listener
  list with its unsubscribe closure, and the decoding of little-endian 16-bit PCM.
- **NoiseHistory** (`NoiseHistory.tsx`): picks the readings to show, formats the
  relative time and chooses the category dot.

Shared modules:

- **Outcomes**: `Option` and `Result`.
- **JsNumbers**: a scalar that may be NaN or infinite, with JavaScript's
  comparisons.
- **Transcendentals**: the laws assumed of `sqrt`, `exp` and `log10`.
- **SeqMath** and **RealFacts**: sums over sequences and small arithmetic facts.

Numbers are Dafny reals, so there is no rounding. Transcendental functions (`sqrt`,
`exp`, `ln`, `log2`, `log10`, `cos`, `sin`) are function-valued parameters. A
property that needs one of them assumes only the named laws it uses, for example
`exp(0) = 1`, positivity and monotonicity.

Thrown errors become `Result` values. A native call that may fail becomes a
`NativeOutcome` parameter. The clock becomes an elapsed-time or `now` parameter.
The services' mutable fields become an immutable state value, and each operation
returns the next state together with the error it raised.

Where the project's tests expect something the code does not do, the model follows
the code:

- `mobile-app/__tests__/DecibelCalculator.test.ts:175-188` expects decibel levels
  clamped to [0, 120]. The prototype does not clamp: a silent window reads -106 dB
  (`AudioProcessor.SilentWindowIsMinus106`).
- `mobile-app/__tests__/FFTProcessor.test.ts:277-288` expects the three band ratios
  to sum to 1. The code divides by the total plus 1e-10, so they sum to
  T/(T + 1e-10), which is strictly below 1 (close to 1 unless the spectrum is
  nearly silent).
- `mobile-app/__tests__/MovingAverageFilter.test.ts:130-139` expects a causal
  moving average. The prototype's `np.convolve(data, ones(n) / n, 'same')` is
  centred and divides every output by n, so the edges are pulled toward zero.

## Model

| member | source | states |
|---|---|---|
| FftProcessor.NewProcessor | mobile-app/src/utils/FFTProcessor.ts:113-118 | construction fails exactly when the rate compares `<= 0`, so NaN and +Infinity are accepted; a built processor keeps the given rate |
| FftProcessor.ConstructorAdmitsNonFiniteRates | mobile-app/src/utils/FFTProcessor.ts:113-116 | NaN and +Infinity pass the guard; -Infinity and 0 fail it; the default 44100 Hz passes |
| FftProcessor.Pow2IsPowerOfTwo | mobile-app/src/utils/FFTProcessor.ts:161 | `Math.pow(2, k)` is a power of two for every k |
| FftProcessor.CeilLog2 | mobile-app/src/utils/FFTProcessor.ts:161 | `ceil(log2 n)` is the least k with n <= 2^k |
| FftProcessor.CeilLog2Unique | mobile-app/src/utils/FFTProcessor.ts:161 | the two defining bounds determine that exponent uniquely |
| FftProcessor.EffectiveFftSize | mobile-app/src/utils/FFTProcessor.ts:159-164 | the size transformed with is a power of two in [n, 2n), and a power-of-two request is kept as it is |
| FftProcessor.EffectiveFftSizeAsWritten | mobile-app/src/utils/FFTProcessor.ts:159-164 | with the 32-bit bitwise test, a request that fails the test becomes a power of two in [n, 2n); any request keeps at least its size |
| FftProcessor.AsWrittenSizeTestAcceptsNonPowerOfTwo | mobile-app/src/utils/FFTProcessor.ts:159-164 | 2^32 + 1 passes the 32-bit test although it is not a power of two, so it is kept; the intended rounding gives 2^33 |
| FftProcessor.ValidFftSizeIsPositiveInteger | mobile-app/src/utils/FFTProcessor.ts:154-156 | `nfft` is accepted exactly when it is a finite positive integer |
| FftProcessor.HammingWindow | mobile-app/src/utils/FFTProcessor.ts:327-337 | one sample gives no usable window (0/0); otherwise the window keeps the length and silent samples stay silent |
| FftProcessor.HammingWindowTapersEnds | mobile-app/src/utils/FFTProcessor.ts:327-337 | when cos 0 = cos 2π = 1, the first and last samples are scaled by 0.54 - 0.46 = 0.08 |
| FftProcessor.PadSamples | mobile-app/src/utils/FFTProcessor.ts:346-362 | exactly `targetLength` values: the input's prefix then zeros, which truncates a longer input |
| FftProcessor.Evens | mobile-app/src/utils/FFTProcessor.ts:406-415 | the even-indexed elements in order, ceil(N/2) of them; `FftProcessor.EvensOddsSum` shows that evens and odds together account for the whole input |
| FftProcessor.Odds | mobile-app/src/utils/FFTProcessor.ts:406-415 | the odd-indexed elements in order, floor(N/2) of them; with `FftProcessor.Evens` they split the input's sum (`FftProcessor.EvensOddsSum`) |
| FftProcessor.Combine | mobile-app/src/utils/FFTProcessor.ts:422-445 | one radix-2 step yields twice the half length, and bin k is the butterfly of bin k mod N/2 of the halves; combining silent halves gives silence (`FftProcessor.CombineOfSilence`), and through `FftProcessor.Fft` bin 0 is the sum of the input (`FftProcessor.FftZeroBinIsSum`) |
| FftProcessor.Fft | mobile-app/src/utils/FFTProcessor.ts:397-448 | a power-of-two input keeps its length, and an input of at most one value is returned unchanged |
| FftProcessor.ButterflyOfSilence | mobile-app/src/utils/FFTProcessor.ts:436-444 | a butterfly of zero halves is zero |
| FftProcessor.CombineOfSilence | mobile-app/src/utils/FFTProcessor.ts:422-445 | combining zero halves gives zeros |
| FftProcessor.FftOfSilence | mobile-app/src/utils/FFTProcessor.ts:397-448 | the transform of silence is silence, whatever the twiddle functions are |
| FftProcessor.EvensOddsSum | mobile-app/src/utils/FFTProcessor.ts:406-415 | the even/odd split drops no element: the two halves' sums add up to the input's sum |
| FftProcessor.FftZeroBinIsSum | mobile-app/src/utils/FFTProcessor.ts:397-448 | when cos 0 = 1 and sin 0 = 0, bin 0 of the transform is the sum of the input (the DC term) |
| FftProcessor.Rfft | mobile-app/src/utils/FFTProcessor.ts:373-387 | N/2 + 1 bins, each the same bin of the full complex transform of the real input; bin 0 is the sum of the input (`FftProcessor.FftZeroBinIsSum`), and silence gives zeros (`FftProcessor.FftOfSilence`) |
| FftProcessor.AsComplex | mobile-app/src/utils/FFTProcessor.ts:376-380 | each real sample becomes a complex value with zero imaginary part; the input that `FftProcessor.Rfft` hands to the transform |
| FftProcessor.ModulusNonNegative | mobile-app/src/utils/FFTProcessor.ts:458-462 | under the square-root laws a modulus is never negative, and a zero bin has modulus 0 |
| FftProcessor.ModuliNonNegative | mobile-app/src/utils/FFTProcessor.ts:458-462 | the same holds for every bin of a spectrum |
| FftProcessor.CalculateMagnitudes | mobile-app/src/utils/FFTProcessor.ts:458-462 | one magnitude per bin, none negative, and zero for a zero bin |
| FftProcessor.RfftFreq | mobile-app/src/utils/FFTProcessor.ts:473-482 | floor(nfft/2) + 1 bins starting at 0, strictly ascending, bin i at i/(nfft·d) |
| FftProcessor.BinFrequency | mobile-app/src/utils/FFTProcessor.ts:179 | with d = 1/rate, bin i lies at i·rate/nfft Hz |
| FftProcessor.FrequencyBins | mobile-app/src/utils/FFTProcessor.ts:179 | the bins of a transform at the processor's rate follow that layout |
| FftProcessor.PerformFft | mobile-app/src/utils/FFTProcessor.ts:148-186 | empty samples are rejected first, then an invalid `nfft`. Otherwise: the spectrum is NaN exactly for one sample; the size, chosen with the corrected power-of-two test, is a power of two in [nfft, 2·nfft) and keeps a power-of-two request; the frequencies follow the bin layout; the magnitudes match the frequencies one to one and are non-negative |
| FftProcessor.DefaultSizeGivesBins | mobile-app/src/utils/FFTProcessor.ts:60-148 | a call with the default size 2048 keeps that size and gives 1025 frequency bins and 1025 magnitudes when there are at least two samples |
| FftProcessor.FirstMaxIsUnique | mobile-app/src/utils/FFTProcessor.ts:276-284 | at most one index is the first index of the maximum magnitude |
| FftProcessor.RolloffIndexIsUnique | mobile-app/src/utils/FFTProcessor.ts:247-256 | at most one index is the rolloff index |
| FftProcessor.Normalize | mobile-app/src/utils/FFTProcessor.ts:231-232 | normalised magnitudes are non-negative and sum to T/(T + 1e-10), which is below 1 |
| FftProcessor.Products | mobile-app/src/utils/FFTProcessor.ts:236 | element-wise products of frequencies and weights; their sum is the centroid, bounded by `FftProcessor.CentroidBounds` |
| FftProcessor.Centroid | mobile-app/src/utils/FFTProcessor.ts:235-237 | the sum of frequency times normalised magnitude; its bounds are stated by `FftProcessor.CentroidBounds` |
| FftProcessor.CentroidBounds | mobile-app/src/utils/FFTProcessor.ts:235-237 | with frequencies in [0, top], the centroid lies in [0, top·Σweights] |
| FftProcessor.Deviations | mobile-app/src/utils/FFTProcessor.ts:240-243 | the weighted squared deviations are never negative |
| FftProcessor.Spread | mobile-app/src/utils/FFTProcessor.ts:240-244 | under the square-root laws the spread is never negative |
| FftProcessor.Flatness | mobile-app/src/utils/FFTProcessor.ts:260-268 | under the exponential laws the flatness is positive |
| FftProcessor.Entropy | mobile-app/src/utils/FFTProcessor.ts:271-273 | minus the sum of p·log2 p over the non-zero normalised magnitudes; no property is proved about it |
| FftProcessor.BandSumsPartitionTotal | mobile-app/src/utils/FFTProcessor.ts:287-302 | every bin falls in exactly one band, so the band sums add up to the total magnitude |
| FftProcessor.BandSumNonNegative | mobile-app/src/utils/FFTProcessor.ts:287-302 | a band sum of non-negative magnitudes is never negative |
| FftProcessor.BandRatios | mobile-app/src/utils/FFTProcessor.ts:304-315 | each band ratio lies in [0, 1], and the three sum to T/(T + 1e-10) < 1 |
| FftProcessor.EnergyRatios | mobile-app/src/utils/FFTProcessor.ts:304-315 | the ratios as computed, over the three band sums plus 1e-10, are those shares |
| FftProcessor.RolloffIndex | mobile-app/src/utils/FFTProcessor.ts:247-256 | the loop stops at the first bin whose running sum reaches 0.85, or at the last bin when none does |
| FftProcessor.DominantIndex | mobile-app/src/utils/FFTProcessor.ts:276-284 | the loop finds the first index of the maximum magnitude; later equal bins do not replace it |
| FftProcessor.BandEnergies | mobile-app/src/utils/FFTProcessor.ts:287-302 | the loop's three accumulators are the three band sums |
| FftProcessor.FeatureSetFromIndices | mobile-app/src/utils/FFTProcessor.ts:220-316 | the rolloff, dominant, centroid and ratio values chosen by those rules make a feature set of the spectrum |
| FftProcessor.ExtractSpectralFeatures | mobile-app/src/utils/FFTProcessor.ts:220-316 | empty arrays are rejected first, then a length mismatch; on success the dominant and rolloff frequencies come from the selection rules, the ratios lie in [0, 1] and sum below 1, the spread is not negative and the flatness is positive |
| NoiseClassifier.LabelsAreDistinct | mobile-app/src/services/NoiseClassifier.ts:203-236 | different descriptions have different label strings |
| NoiseClassifier.CategoryOf | mobile-app/src/services/NoiseClassifier.ts:28-34 | Quiet exactly below 50, Normal exactly in [50, 70), Noisy exactly from 70 |
| NoiseClassifier.CategoryMonotone | mobile-app/src/services/NoiseClassifier.ts:130-146 | a louder level never gets a quieter category |
| NoiseClassifier.RawConfidence | mobile-app/src/services/NoiseClassifier.ts:130-146 | the confidence of each branch before the 0.5 floor; its shape is stated by the Quiet, Normal and Noisy confidence lemmas below |
| NoiseClassifier.SimpleConfidence | mobile-app/src/services/NoiseClassifier.ts:130-151 | for any non-negative level the confidence lies in [0.5, 1] |
| NoiseClassifier.ClassifySimple | mobile-app/src/services/NoiseClassifier.ts:120-153 | rejects exactly NaN, the infinities and negative levels. Otherwise the category follows the half-open thresholds, the confidence lies in [0.5, 1], the level is echoed, and there is no description or features |
| NoiseClassifier.InvalidLevelsRejected | mobile-app/src/services/NoiseClassifier.ts:122-124 | NaN, both infinities and -0.5 are rejected; 0 dB is accepted |
| NoiseClassifier.ThresholdsAreHalfOpen | mobile-app/src/services/NoiseClassifier.ts:130-146 | 49.9 is Quiet, 50 is Normal, 69.9 is Normal, 70 is Noisy |
| NoiseClassifier.QuietConfidenceNonIncreasing | mobile-app/src/services/NoiseClassifier.ts:130-133 | within Quiet the confidence never rises with the level |
| NoiseClassifier.NormalConfidencePeaksAtMidpoint | mobile-app/src/services/NoiseClassifier.ts:134-140 | within Normal the confidence is 1 at 60 dB and symmetric about it |
| NoiseClassifier.NoisyConfidenceNonDecreasing | mobile-app/src/services/NoiseClassifier.ts:141-146 | within Noisy the confidence never falls with the level and is 1 from 100 dB on |
| NoiseClassifier.ConfidenceFloorApplies | mobile-app/src/services/NoiseClassifier.ts:133-151 | at 50 and 70 dB the raw confidence is 0 and the floor lifts it to 0.5; 30 dB gives 0.5 and 0 dB gives 1 |
| NoiseClassifier.DescribeNoiseType | mobile-app/src/services/NoiseClassifier.ts:203-236 | each of the eight descriptions is given exactly when its rule matches and no earlier rule of the chain does |
| NoiseClassifier.RumbleAtSeventyIsNoisy | mobile-app/src/services/NoiseClassifier.ts:210-216 | at exactly 70 dB a bass-heavy sound is described as rumble, while its category is Noisy |
| NoiseClassifier.TrafficImpliesNoisy | mobile-app/src/services/NoiseClassifier.ts:210-212 | the traffic description only goes with the Noisy category |
| NoiseClassifier.SpectralConfidence | mobile-app/src/services/NoiseClassifier.ts:246-272 | the spectral confidence is 0.5 or 0.8, and 0.8 exactly when the features fit the category's pattern |
| NoiseClassifier.ClassifyEnhanced | mobile-app/src/services/NoiseClassifier.ts:176-193 | fails exactly when the simple classification fails. Otherwise it keeps its category and level, always sets the description and features, and gives a confidence in [0.5, 0.9] that averages the two confidences |
| NoiseClassifier.ClassifyNoise | mobile-app/src/services/NoiseClassifier.ts:355-358 | the category of a valid level; invalid levels are rejected |
| NoiseClassifier.ClassifyNoiseEnhanced | mobile-app/src/services/NoiseClassifier.ts:374-380 | the threshold category with a description, the features and a confidence in [0.5, 0.9]; invalid levels are rejected |
| AudioProcessor.PyFloorDiv | research/prototypes/audio_processor.py:91 | Python's `//` rounds toward negative infinity for either sign of divisor |
| AudioProcessor.Squares | research/prototypes/audio_processor.py:71 | element-wise squares; their mean is non-negative (`AudioProcessor.MeanSquareNonNegative`), silence has RMS 0 (`AudioProcessor.RmsOfSilence`), and the mean is a² for a constant magnitude a (`AudioProcessor.MeanSquareOfConstantMagnitude`) |
| AudioProcessor.CalculateRms | research/prototypes/audio_processor.py:61-71 | NaN exactly for an empty buffer (numpy's empty mean); otherwise sqrt(mean(x²)), never negative under the square-root laws |
| AudioProcessor.MeanSquareNonNegative | research/prototypes/audio_processor.py:71 | the mean square is never negative |
| AudioProcessor.RmsNonNegative | research/prototypes/audio_processor.py:61-71 | the RMS is never negative |
| AudioProcessor.RmsOfSilence | research/prototypes/audio_processor.py:61-71 | an all-zero buffer has RMS 0 |
| AudioProcessor.MeanSquareOfConstantMagnitude | research/prototypes/audio_processor.py:71 | samples all of magnitude c have mean square c² |
| AudioProcessor.RmsOfConstantMagnitude | research/prototypes/audio_processor.py:61-71 | samples all of magnitude c have RMS c |
| AudioProcessor.RmsOfSquareWave | research/prototypes/audio_processor.py:61-71 | the ±0.1 square wave has RMS 0.1 |
| AudioProcessor.DecibelsOfRms | research/prototypes/audio_processor.py:107-113 | 20·log10(rms + 1e-10) + 94, never below -106 dB for a non-negative RMS under the logarithm laws, and not clamped above |
| AudioProcessor.SilentWindowIsMinus106 | research/prototypes/audio_processor.py:107-113 | a silent window reads -106 dB, below 0: levels are not clamped |
| AudioProcessor.DecibelsMonotone | research/prototypes/audio_processor.py:107-113 | a window with a larger RMS never reads lower |
| AudioProcessor.PadToWindow | research/prototypes/audio_processor.py:86-88 | an input shorter than the window is zero-padded at the end to exactly the window size; a longer one is unchanged |
| AudioProcessor.CalculateDecibels | research/prototypes/audio_processor.py:73-115 | a window of 0 or 1 is a division error, and a negative one gives no values. Otherwise: 1 to len//hop - 1 values, each the level of the window at k·hop lying inside the padded signal; the count stops early only when the next window would not fit, and an even window size gives exactly len//hop - 1 |
| AudioProcessor.EvenWindowFits | research/prototypes/audio_processor.py:91-99 | with an even window every counted window fits the signal |
| AudioProcessor.FirstWindowCounted | research/prototypes/audio_processor.py:87-91 | the padded signal always has room for one window, and it is counted |
| AudioProcessor.DefaultLevelWindowFits | research/prototypes/audio_processor.py:73-91 | with the default window of 4096 the hop is 2048, at least one window is counted, and every counted window lies inside the padded signal |
| AudioProcessor.MovingMean | research/prototypes/audio_processor.py:132-133 | output i of the 'same' convolution: the in-range samples of the window offset by n // 2, summed and divided by n |
| AudioProcessor.MovingAverageFilter | research/prototypes/audio_processor.py:117-135 | shorter data comes back unchanged; a negative or zero window is numpy's error. Otherwise the output has the input's length and output i is the centred mean of `np.convolve(..., 'same')` |
| AudioProcessor.DefaultFilterWindow | research/prototypes/audio_processor.py:117-135 | with the default window of 10, fewer than 10 values come back unchanged and otherwise there is one mean per value |
| AudioProcessor.UnitWindowIsIdentity | research/prototypes/audio_processor.py:132-133 | a window of one leaves the data unchanged |
| AudioProcessor.ConstantSignalAverage | research/prototypes/audio_processor.py:132-133 | a constant signal comes through unchanged wherever the window lies inside it |
| AudioProcessor.ClassifyNoiseSimple | research/prototypes/audio_processor.py:220-235 | below 50 is Quiet, below 70 Normal, otherwise Noisy, with NaN failing both tests |
| AudioProcessor.PrototypeAgreesWithApp | research/prototypes/audio_processor.py:220-235 | on every level the app accepts, the prototype's category is the app's `classifyNoise` category |
| AudioProcessor.PrototypeCallsNaNNoisy | research/prototypes/audio_processor.py:230-235 | outside that domain they differ: the prototype calls NaN Noisy, the app rejects it |
| AudioProcessor.PyRolloffIndex | research/prototypes/audio_processor.py:184-186 | the first index whose cumulative sum reaches 0.85, else the last index |
| AudioProcessor.FirstReaching | research/prototypes/audio_processor.py:184-186 | the search from a position stays within the spectrum |
| AudioProcessor.FirstReachingIsRolloff | research/prototypes/audio_processor.py:184-186 | when no earlier index reaches the share, the search finds the rolloff index |
| AudioProcessor.PyRolloffMatchesApp | research/prototypes/audio_processor.py:184-186 | the prototype's rolloff index is the app's rolloff index |
| AudioProcessor.PyArgmax | research/prototypes/audio_processor.py:198-199 | `np.argmax` returns an index of the spectrum |
| AudioProcessor.PyArgmaxMatchesApp | research/prototypes/audio_processor.py:198-199 | `np.argmax` is the first index of the maximum, as in the app's loop |
| AudioProcessor.MasksMatchBands | research/prototypes/audio_processor.py:202-204 | a frequency is in a mask exactly when the app's band chain puts it in that band |
| AudioProcessor.MaskedSumIsBandSum | research/prototypes/audio_processor.py:202-204 | each masked sum is the app's band sum |
| AudioProcessor.PyTotalNonNegative | research/prototypes/audio_processor.py:206 | the three masked sums add up to the total magnitude, which is non-negative |
| AudioProcessor.PyBandRatiosMatchApp | research/prototypes/audio_processor.py:206-217 | each prototype band ratio equals the app's ratio for the same spectrum |
| StorageService.BaseWeight | mobile-app/src/services/StorageService.ts:43 | never above 1; exactly 1 from 120 dB on; non-negative for a non-negative level; below 120 dB the weight is decibel/120 |
| StorageService.DecayProgress | mobile-app/src/services/StorageService.ts:51-55 | the progress is capped at 1, and it is positive unless the decay period is inverted |
| StorageService.CalculateDecayedWeight | mobile-app/src/services/StorageService.ts:37-62 | a fresh reading gets exactly its base weight; an older one gets the larger of base·factor and the floor minWeightFactor·base: at least both, and equal to one of them |
| StorageService.DecayFactor | mobile-app/src/services/StorageService.ts:58 | exp(-decayRate·progress), positive under the exponential laws |
| StorageService.WeightAtMostOne | mobile-app/src/services/StorageService.ts:35-61 | for a non-negative level, a non-negative rate, a floor factor of at most 1 and a decay period that is not inverted (decayStartMinutes ≤ timeWindowMinutes), no weight exceeds 1 |
| StorageService.DecayFactorFloor | mobile-app/src/services/StorageService.ts:51-58 | with a non-negative rate, because the progress is capped at 1, the decay factor is never below exp(-decayRate) |
| StorageService.DecayFactorAtMostOne | mobile-app/src/services/StorageService.ts:51-58 | with a non-negative rate and a decay period that is not inverted (decayStartMinutes ≤ timeWindowMinutes), the decay factor lies in (0, 1] |
| StorageService.WeightAtMostBase | mobile-app/src/services/StorageService.ts:58-61 | for a non-negative level, a non-negative rate, a floor factor of at most 1 and a decay period that is not inverted, the weight lies between 0 and the base weight |
| StorageService.InvertedPeriodRaisesFactor | mobile-app/src/services/StorageService.ts:51-58 | with a window shorter than the decay start and a non-negative rate, the progress is negative and the decay factor is at least 1 |
| StorageService.QueryWindowMs | mobile-app/src/services/StorageService.ts:194-196 | the window is the configured minutes in milliseconds up to 360 minutes and the 6-hour cap beyond, never above 21 600 000 ms |
| StorageService.Admits | mobile-app/src/services/StorageService.ts:210-222 | a document is kept when it has a timestamp and is not older than the time window |
| StorageService.Decay | mobile-app/src/services/StorageService.ts:216-239 | the pushed reading has the age in minutes, the decayed weight for that age, and the document's level and location |
| StorageService.DecayReadings | mobile-app/src/services/StorageService.ts:204-240 | the snapshot loop yields at most one reading per document. Every kept reading is within the time window, and its weight is the decayed weight of its level and age |
| StorageService.DecayReadingsKeepsAdmitted | mobile-app/src/services/StorageService.ts:210-239 | the loop keeps exactly the documents that have a timestamp and are not older than the window, each decayed |
| StorageService.AdmittedIndices | mobile-app/src/services/StorageService.ts:210-222 | the positions of the admitted documents: strictly increasing, each admitted, and every admitted position present |
| StorageService.DecayReadingsFollowsSnapshotOrder | mobile-app/src/services/StorageService.ts:210-239 | output i is the decayed form of the i-th admitted document, so the readings keep snapshot order, which the aggregation's tie-breaking and first-appearance order rely on |
| StorageService.LocationKey | mobile-app/src/services/StorageService.ts:77 | the template key `${building}:${room}` |
| StorageService.LocationKeyLayout | mobile-app/src/services/StorageService.ts:77 | the key is the building, one ':', then the room |
| StorageService.FirstColon | mobile-app/src/services/StorageService.ts:77 | the first colon lies within the string |
| StorageService.ColonFollowsBuilding | mobile-app/src/services/StorageService.ts:77 | for a building without a colon, the key's first colon is the separator |
| StorageService.LocationKeyInjective | mobile-app/src/services/StorageService.ts:77 | buildings without a colon share a key only for the same building and room |
| StorageService.ColonMergesLocations | mobile-app/src/services/StorageService.ts:77 | "A:B"/"C" and "A"/"B:C" share a key, so their readings are merged |
| StorageService.KeysOf | mobile-app/src/services/StorageService.ts:77 | the key of each reading, in order; `StorageService.AggregateByLocation` keeps exactly its distinct values (`StorageService.DistinctKeys`), and a key outside it has no best reading (`StorageService.BestForIsFirstHeaviest`) |
| StorageService.DistinctKeys | mobile-app/src/services/StorageService.ts:74-86 | the map's keys: the same keys as the input, with no repeats |
| StorageService.BestForIsFirstHeaviest | mobile-app/src/services/StorageService.ts:76-84 | an absent key keeps nothing; a present key keeps a reading of maximal weight, the first one on a tie, since the test is strict |
| StorageService.ExtendFirstHeaviest | mobile-app/src/services/StorageService.ts:81-83 | one more reading keeps the first-heaviest choice when the strict `>` says so |
| StorageService.AbsentKeyHasNoBest | mobile-app/src/services/StorageService.ts:78-83 | a key that never occurs has no entry |
| StorageService.KeepHeavierStep | mobile-app/src/services/StorageService.ts:76-84 | one loop step keeps one entry per key, in first-appearance order, each the best reading so far |
| StorageService.AggregateByLocation | mobile-app/src/services/StorageService.ts:71-87 | the result holds one reading per distinct key, in first-appearance order, and it is the first heaviest reading with that key |
| StorageService.IndexOfKey | mobile-app/src/services/StorageService.ts:78 | the map lookup finds the entry with the key, or reports it absent exactly when no entry has it |
| StorageService.BestComesFromInput | mobile-app/src/services/StorageService.ts:71-87 | every kept reading is an input reading with that key |
| AudioService.InitFailureMessageIsNotAboutPermission | mobile-app/src/services/AudioService.ts:97-101 | the init failure's message contains neither "permission" nor "denied" |
| AudioService.MentionsPermission | mobile-app/src/services/AudioService.ts:170-174 | the catch block's test: the message includes "permission" or "denied", case-sensitively |
| AudioService.Initialize | mobile-app/src/services/AudioService.ts:77-103 | a no-op once initialised; a failing native init throws the init message; success marks the service initialised |
| AudioService.StartRecording | mobile-app/src/services/AudioService.ts:151-188 | while recording it fails with ALREADY_RECORDING and changes nothing. It succeeds exactly when init and start succeed, leaving the service recording and initialised. Any other failure leaves it not recording with its listeners, and is PERMISSION_DENIED exactly when the message mentions permission or denied |
| AudioService.Classify | mobile-app/src/services/AudioService.ts:166-186 | PERMISSION_DENIED exactly for a message with "permission" or "denied", else RECORDING_FAILED |
| AudioService.InitFailureReportsRecordingFailed | mobile-app/src/services/AudioService.ts:159-186 | a failing native init surfaces from start as RECORDING_FAILED, never INITIALIZATION_FAILED |
| AudioService.StopRecording | mobile-app/src/services/AudioService.ts:195-213 | fails with NOT_RECORDING when idle; a successful stop clears `isRecording`; a failing stop is RECORDING_FAILED and leaves it recording |
| AudioService.StartThenStop | mobile-app/src/services/AudioService.ts:151-213 | a successful start and stop end stopped and initialised, with the same listeners |
| AudioService.Cleanup | mobile-app/src/services/AudioService.ts:323-332 | completes exactly unless a needed stop fails; completion leaves the service stopped, uninitialised and without listeners; a failed stop leaves everything as it was |
| AudioService.CleanupReturnsToInitialState | mobile-app/src/services/AudioService.ts:323-332 | a completed cleanup returns the service to its initial state from any state |
| AudioService.Subscribe | mobile-app/src/services/AudioService.ts:282-283 | the listener is appended and nothing else changes |
| AudioService.IndexOf | mobile-app/src/services/AudioService.ts:287 | the first position of the listener, or -1 exactly when it is absent |
| AudioService.Unsubscribe | mobile-app/src/services/AudioService.ts:286-291 | an absent listener changes nothing; the recording flags never change |
| AudioService.UnsubscribeRemovesFirstOccurrence | mobile-app/src/services/AudioService.ts:286-291 | exactly the first registration of the listener is removed, and the order of the rest is kept |
| AudioService.SubscribeThenUnsubscribe | mobile-app/src/services/AudioService.ts:282-291 | subscribing a new listener and calling its closure restores the state |
| AudioService.UnsubscribeTwiceIsNoOp | mobile-app/src/services/AudioService.ts:286-291 | for a listener registered at most once, a second call of the closure changes nothing |
| AudioService.Int16Le | mobile-app/src/services/AudioService.ts:266 | a little-endian signed 16-bit value lies in [-32768, 32767] |
| AudioService.Int16RoundTrip | mobile-app/src/services/AudioService.ts:266 | reading back the bytes of a 16-bit value gives the value |
| AudioService.BytesRoundTrip | mobile-app/src/services/AudioService.ts:266 | every byte pair is the encoding of its value |
| AudioService.DecodePcm16 | mobile-app/src/services/AudioService.ts:259-270 | an odd byte count fails, because the loop's last `getInt16` reads past the end of the buffer; otherwise half as many samples, sample i being the 16-bit value of bytes 2i and 2i+1 over 32768 |
| AudioService.DecodedSamplesInRange | mobile-app/src/services/AudioService.ts:248-270 | every decoded sample lies in [-1, 32767/32768], inside [-1, 1) |
| AudioService.EncodePcm16 | mobile-app/src/services/AudioService.ts:264-270 | the recorder's byte layout: two bytes per sample, low byte first |
| AudioService.DecodeEncoded | mobile-app/src/services/AudioService.ts:259-270 | decoding the recorder's bytes gives each sample over 32768 |
| NoiseHistory.JsSliceFrom | mobile-app/src/components/NoiseHistory.tsx:97-98 | `slice(start)`: a negative start counts from the end, and both kinds are clamped to the array |
| NoiseHistory.Reverse | mobile-app/src/components/NoiseHistory.tsx:99 | same length, element i is the input's element counted from the end |
| NoiseHistory.DisplayReadings | mobile-app/src/components/NoiseHistory.tsx:93-99 | `readings.slice(-maxReadings).reverse()` with a default of 10: never more readings than given, and newest first (element i is the i-th from the end) |
| NoiseHistory.DisplayShowsNewestFirst | mobile-app/src/components/NoiseHistory.tsx:97-99 | a positive limit shows the last min(limit, n) readings, newest first |
| NoiseHistory.DefaultShowsTen | mobile-app/src/components/NoiseHistory.tsx:93 | with no limit given the list behaves as a limit of 10 and shows at most ten readings |
| NoiseHistory.ZeroLimitShowsAll | mobile-app/src/components/NoiseHistory.tsx:93-99 | a limit of 0 is `slice(-0)` and shows every reading |
| NoiseHistory.NegativeLimitDropsOldest | mobile-app/src/components/NoiseHistory.tsx:97-99 | a negative limit -k hides the k oldest readings |
| NoiseHistory.NoiseHistoryView | mobile-app/src/components/NoiseHistory.tsx:97-114 | the empty state is shown exactly when nothing is selected; otherwise the list shows the selection |
| NoiseHistory.NoReadingsShowEmptyState | mobile-app/src/components/NoiseHistory.tsx:101-110 | no readings give the empty state, which has no title |
| NoiseHistory.SomeReadingsShowList | mobile-app/src/components/NoiseHistory.tsx:112-114 | any reading with the default or a non-negative limit gives the list titled "Recent Readings" |
| NoiseHistory.FormatTimestamp | mobile-app/src/components/NoiseHistory.tsx:57-77 | seconds under a minute (negative included), whole minutes under an hour, hours under a day, otherwise clock time; each count is the floor of the elapsed time in its unit |
| NoiseHistory.NestedFloor | mobile-app/src/components/NoiseHistory.tsx:66-71 | flooring to minutes and then to hours is flooring to hours |
| NoiseHistory.FutureReadingIsNegative | mobile-app/src/components/NoiseHistory.tsx:59-63 | a reading five seconds in the future reads "-5s ago" |
| NoiseHistory.NatToString | mobile-app/src/components/NoiseHistory.tsx:63 | a non-empty string of decimal digits |
| NoiseHistory.ParseNatToString | mobile-app/src/components/NoiseHistory.tsx:63 | the digits read back as the number they print |
| NoiseHistory.Render | mobile-app/src/components/NoiseHistory.tsx:62-76 | every label has text except the locale clock time |
| NoiseHistory.CategoryDot | mobile-app/src/components/NoiseHistory.tsx:43-52 | the green, yellow and red circle for Quiet, Normal and Noisy |
| NoiseHistory.CategoryDotsDistinct | mobile-app/src/components/NoiseHistory.tsx:43-52 | every category has a dot of one Unicode code point, and no two categories share one |

## Left out

- `DecibelCalculator.ts` and `MovingAverageFilter.ts` in the app throw "Not implemented". They are not part of this model; the prototype's level estimator and smoother are modelled instead.
- Cloud I/O in `StorageService.ts` is left out: saving, subscribing, querying and the connection test. So is the authentication service. Only the pure weight, window, filter and aggregation logic is modelled, with `now` as a parameter.
- Native plumbing in `AudioService.ts` is left out: recorder init, start and stop are outcome parameters. `requestPermission` (platform permission dialogs) is not modelled. Neither is the dispatch of `handleAudioData`, which only calls each listener and logs errors. The base64 step of `base64ToFloat32Array` is outside the model, which decodes from bytes. The getters `getRecordingStatus` and `getConfig` are plain field reads.
- AudioService.StartRecording: the model does not cover concurrent async calls interleaving between an `await` and the next state update; each call is one atomic step.
- UI rendering is left out: layout, styles, scroll views and the category colour, icon and description tables. `toLocaleTimeString` is the `ClockTime` label without text, and `toFixed` formatting of levels is not modelled.
- The Python prototype's file loading, `perform_fft` (numpy's FFT), training, sample generation and plotting involve I/O, machine learning or library numerics.
- Floating-point rounding is not modelled: reals stand in for doubles and float32 values. `Math.log2` is taken as exact, so `CeilLog2` is the mathematical ceiling even where a rounded logarithm of a huge size could differ.
- FftProcessor.Fft: states the length, the behaviour on silence and the zero-frequency bin, but not that every bin is the discrete Fourier transform; the twiddle functions are parameters with no laws beyond cos 0 = 1 and sin 0 = 0.
- FftProcessor.ExtractSpectralFeatures: the entropy, and the exact values of the centroid, spread and flatness, have no contract beyond their definitions and signs. The method requires non-negative magnitudes, which every spectrum from `performFFT` has, other than the all-NaN spectrum of a one-sample input (see FftProcessor.HammingWindow; the model returns `NaNSpectrum` there, which the feature extraction does not take); on negative magnitudes the source would take logarithms of negative numbers.
- FftProcessor.PerformFft: chooses the size with the corrected power-of-two test (`FftProcessor.EffectiveFftSize`), not the source's 32-bit test (`FftProcessor.EffectiveFftSizeAsWritten`). The two differ only for sizes of at least 2^32, which the source could not allocate anyway; see Findings. PerformFft also requires a finite positive processor rate. The constructor accepts NaN and +Infinity, and a transform at such a rate would give NaN frequencies, which reals cannot express.
- FftProcessor.HammingWindow: the NaN window of a one-sample input is the `NaNSpectrum` outcome, which keeps the bin layout but not the NaN magnitudes themselves.
- StorageService.WeightAtMostOne: needs a non-negative level and `timeWindowMinutes >= decayStartMinutes`. The doc comment at StorageService.ts:35 promises a weight between 0 and 1, but the code does not keep that promise in two cases. A negative level gives a negative base weight (StorageService.ts:43), which a negative floor factor turns into a large positive floor. An inverted period makes the factor at least 1 (`StorageService.InvertedPeriodRaisesFactor`): at 120 dB with rate 1, decayStart 10, timeWindow 5 and age 11, the progress is -0.2 and the factor is e^0.2.
- StorageService.DecayFactorAtMostOne: needs `timeWindowMinutes >= decayStartMinutes`. With an inverted period the factor is at least 1 instead (`StorageService.InvertedPeriodRaisesFactor`).
- StorageService.WeightAtMostBase: needs `timeWindowMinutes >= decayStartMinutes`. With an inverted decay period the progress is negative and the factor can exceed 1, so the weight can exceed the base weight; that case has no lemma.
- StorageService.CalculateDecayedWeight: levels are reals, so a NaN level is not modelled. A zero-length decay period is modelled as progress 1, which is what `Math.min(x / 0, 1)` gives for a positive age excess.
- StorageService: the default heatmap configuration lives in the shared types, which are not part of this model; every operation takes the configuration as a parameter.
- AudioProcessor.PyRolloffIndex: requires a non-empty spectrum. On an empty one numpy raises an index error, which the model does not represent. AudioProcessor.PyArgmax has the same requirement, since `np.argmax` of an empty array raises.
- AudioProcessor.CalculateDecibels: `calculate_rms` of each window is always over a non-empty window, so the NaN of an empty mean does not arise there.
- NoiseHistory.DisplayReadings: `maxReadings` is an integer. A fractional limit, which `slice` would truncate, is not modelled.
- The colour tables of the level display and the classification badge are static lookups with nothing to prove.
- The app's `MovingAverageFilter` class is a stub. Its `add` throws "Not implemented" (mobile-app/src/utils/MovingAverageFilter.ts:32-38), and `reset` only empties the buffer. It is not part of this model; the prototype's `moving_average_filter` is.

## Findings

| source | as written | input that shows it | evidently intended | confidence | as-written member | corrected member |
|---|---|---|---|---|---|---|
| mobile-app/src/utils/FFTProcessor.ts:159-164 | the power-of-two test `(nfft & (nfft - 1)) !== 0` uses 32-bit bitwise operators, so it sees only the low 32 bits of the size | nfft = 4294967297 (2^32 + 1): its low words are 1 and 0, so the test reports a power of two and the size is kept | any size that is not a power of two is rounded up to the next power of two (2^33 here) | not executed; such a size is far beyond any buffer the app allocates | FftProcessor.EffectiveFftSizeAsWritten (shown by FftProcessor.AsWrittenSizeTestAcceptsNonPowerOfTwo) | FftProcessor.EffectiveFftSize |
