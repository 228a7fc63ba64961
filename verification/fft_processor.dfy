/** The FFT processor of the mobile app: input validation, rounding of the transform
    size to a power of two, Hamming window, padding, a recursive radix-2 transform,
    magnitude and frequency bins, and the spectral features computed from them.

    The transform is modelled for its structure (lengths, bin layout, index-selection
    rules, band partition); the trigonometric and logarithmic functions are parameters,
    so nothing here depends on their numerical values unless a law is stated. */
module FftProcessor {

  import opened Outcomes
  import opened JsNumbers
  import opened SeqMath
  import opened Transcendentals
  import RealFacts

  const DEFAULT_FFT_SIZE: nat := 2048
  const DEFAULT_SAMPLE_RATE: real := 44100.0

  /** Band boundaries in Hz: low is below 250, mid is below 4000, high is the rest. */
  const LOW_CUTOFF: real := 250.0
  const MID_CUTOFF: real := 4000.0

  /** Guard against division by zero and log(0). */
  const EPSILON: real := 0.0000000001

  /** Share of the normalized magnitude that the rolloff bin must reach. */
  const ROLLOFF_SHARE: real := 0.85

  datatype SpectralFeatures = SpectralFeatures(
    spectralCentroid: real,
    spectralSpread: real,
    spectralRolloff: real,
    spectralFlatness: real,
    spectralEntropy: real,
    dominantFrequency: real,
    lowFreqRatio: real,
    midFreqRatio: real,
    highFreqRatio: real)

  datatype FftError =
    | InvalidSampleRate(sampleRate: Number)
    | EmptySamples
    | InvalidFftSize(nfft: Number)
    | EmptyArrays
    | LengthMismatch(frequencyCount: nat, magnitudeCount: nat)

  /** An `FFTProcessor` instance: only its sample rate. */
  datatype Processor = Processor(sampleRate: Number)

  // ---------------------------------------------------------------------------
  // Construction

  /** The constructor rejects only rates that compare `<= 0`; NaN and +Infinity
      compare false and are accepted. */
  function NewProcessor(sampleRate: Number): (r: Result<Processor, FftError>)
    ensures r.Err? <==> AtMost(sampleRate, 0.0)
    ensures r.Err? ==> r.error == InvalidSampleRate(sampleRate)
    ensures r.Ok? ==> r.value.sampleRate == sampleRate
  {
    if AtMost(sampleRate, 0.0) then Err(InvalidSampleRate(sampleRate))
    else Ok(Processor(sampleRate))
  }

  lemma ConstructorAdmitsNonFiniteRates()
    ensures NewProcessor(NaN).Ok? && NewProcessor(PositiveInfinity).Ok?
    ensures NewProcessor(NegativeInfinity).Err? && NewProcessor(Finite(0.0)).Err?
    ensures NewProcessor(Finite(DEFAULT_SAMPLE_RATE)).Ok?
  {
  }

  // ---------------------------------------------------------------------------
  // Transform size

  function Pow2(k: nat): (r: nat)
    ensures 1 <= r
  {
    if k == 0 then 1 else 2 * Pow2(k - 1)
  }

  predicate IsPowerOfTwo(n: nat)
    decreases n
  {
    n == 1 || (2 <= n && n % 2 == 0 && IsPowerOfTwo(n / 2))
  }

  lemma {:induction false} Pow2IsPowerOfTwo(k: nat)
    ensures IsPowerOfTwo(Pow2(k))
  {
    if k > 0 {
      Pow2IsPowerOfTwo(k - 1);
      assert Pow2(k) / 2 == Pow2(k - 1);
    }
  }

  /** `Math.ceil(Math.log2(n))`, computed exactly: the least k with n <= 2^k. */
  function CeilLog2(n: nat): (k: nat)
    requires 1 <= n
    ensures n <= Pow2(k)
    ensures k == 0 || Pow2(k - 1) < n
    decreases n
  {
    if n == 1 then 0 else 1 + CeilLog2((n + 1) / 2)
  }

  /** The size `performFFT` transforms with: the requested size if it is a power of
      two, otherwise `Math.pow(2, Math.ceil(Math.log2(nfft)))`. */
  function EffectiveFftSize(n: nat): (r: nat)
    requires 1 <= n
    ensures IsPowerOfTwo(r)
    ensures n <= r < 2 * n
    ensures IsPowerOfTwo(n) ==> r == n
  {
    if IsPowerOfTwo(n) then n
    else
      var k := CeilLog2(n);
      Pow2IsPowerOfTwo(k);
      Pow2(k)
  }

  /** The low 32 bits of an integer: JavaScript's bitwise operators work on
      `ToInt32` of their operands, which has the same bits. */
  function Low32(n: int): bv32 {
    (n % 0x1_0000_0000) as bv32
  }

  /** The source's test `(nfft & (nfft - 1)) === 0`, on 32-bit operands. */
  predicate PowerOfTwoTestAsWritten(n: nat) {
    Low32(n) & Low32(n - 1) == 0
  }

  /** The transform size as the source computes it, with the 32-bit test. */
  function EffectiveFftSizeAsWritten(n: nat): (r: nat)
    requires 1 <= n
    ensures n <= r
    ensures !PowerOfTwoTestAsWritten(n) ==> IsPowerOfTwo(r) && r < 2 * n
  {
    if PowerOfTwoTestAsWritten(n) then n
    else
      var k := CeilLog2(n);
      Pow2IsPowerOfTwo(k);
      Pow2(k)
  }

  /** 2^32 + 1 passes the 32-bit test (its low words are 1 and 0), so it is kept
      although it is not a power of two. */
  lemma AsWrittenSizeTestAcceptsNonPowerOfTwo()
    ensures PowerOfTwoTestAsWritten(0x1_0000_0001)
    ensures !IsPowerOfTwo(0x1_0000_0001)
    ensures EffectiveFftSizeAsWritten(0x1_0000_0001) == 0x1_0000_0001
    ensures EffectiveFftSize(0x1_0000_0001) == 0x2_0000_0000
  {
    assert Low32(0x1_0000_0001) == 1;
    assert Low32(0x1_0000_0000) == 0;
    assert Pow2(33) == 0x2_0000_0000 by {
      assert Pow2(10) == 1024;
      assert Pow2(20) == 1024 * 1024;
      assert Pow2(30) == 1024 * 1024 * 1024;
    }
    assert Pow2(32) < 0x1_0000_0001;
    CeilLog2Unique(0x1_0000_0001, 33);
  }

  lemma {:induction false} Pow2Monotone(i: nat, j: nat)
    requires i <= j
    ensures Pow2(i) <= Pow2(j)
    decreases j
  {
    if i < j {
      Pow2Monotone(i, j - 1);
    }
  }

  /** `CeilLog2` is determined by its two defining bounds. */
  lemma CeilLog2Unique(n: nat, k: nat)
    requires 1 <= n
    requires n <= Pow2(k) && (k == 0 || Pow2(k - 1) < n)
    ensures CeilLog2(n) == k
  {
    var c := CeilLog2(n);
    if c < k {
      Pow2Monotone(c, k - 1);
    } else if k < c {
      Pow2Monotone(k, c - 1);
    }
  }

  /** A positive integer, as `performFFT` demands of `nfft`. */
  predicate IsValidFftSize(nfft: Number) {
    !(AtMost(nfft, 0.0) || !IsInteger(nfft))
  }

  lemma ValidFftSizeIsPositiveInteger(nfft: Number)
    ensures IsValidFftSize(nfft) <==> nfft.Finite? && 0.0 < nfft.value && nfft.value == nfft.value.Floor as real
  {
  }

  // ---------------------------------------------------------------------------
  // Window and padding

  /** `applyHammingWindow`. For one sample the window divides 0 by N - 1 = 0, which
      is NaN in JavaScript; that case is `None`. */
  function HammingWindow(cos: real -> real, samples: seq<real>): (r: Option<seq<real>>)
    ensures r.None? <==> |samples| == 1
    ensures r.Some? ==> |r.value| == |samples|
    ensures r.Some? ==> forall n :: 0 <= n < |samples| && samples[n] == 0.0 ==> r.value[n] == 0.0
  {
    var count := |samples|;
    if count == 1 then None
    else
      Some(seq(count, n requires 0 <= n < count =>
        samples[n] * (0.54 - 0.46 * cos((2.0 * PI * n as real) / (count - 1) as real))))
  }

  /** The window tapers both ends to 0.08 of the sample (0.54 - 0.46), given only
      that the cosine is 1 at 0 and at 2 pi. */
  lemma HammingWindowTapersEnds(cos: real -> real, samples: seq<real>)
    requires 2 <= |samples|
    requires cos(0.0) == 1.0 && cos(2.0 * PI) == 1.0
    ensures HammingWindow(cos, samples).Some?
    ensures HammingWindow(cos, samples).value[0] == 0.08 * samples[0]
    ensures HammingWindow(cos, samples).value[|samples| - 1] == 0.08 * samples[|samples| - 1]
  {
    var last := (|samples| - 1) as real;
    assert (2.0 * PI * last) / last == 2.0 * PI;
  }

  /** `padSamples`: exactly `targetLength` values, a prefix of the input followed
      by zeros. */
  function PadSamples(samples: seq<real>, targetLength: nat): (r: seq<real>)
    ensures |r| == targetLength
    ensures forall i :: 0 <= i < targetLength ==> r[i] == if i < |samples| then samples[i] else 0.0
  {
    if |samples| == targetLength then samples
    else if |samples| < targetLength then samples + seq(targetLength - |samples|, _ => 0.0)
    else samples[..targetLength]
  }

  // ---------------------------------------------------------------------------
  // Radix-2 transform

  datatype Complex = Complex(re: real, im: real)

  function Add(a: Complex, b: Complex): Complex {
    Complex(a.re + b.re, a.im + b.im)
  }

  function Sub(a: Complex, b: Complex): Complex {
    Complex(a.re - b.re, a.im - b.im)
  }

  function Mul(a: Complex, b: Complex): Complex {
    Complex(a.re * b.re - a.im * b.im, a.re * b.im + a.im * b.re)
  }

  const Zero: Complex := Complex(0.0, 0.0)

  /** e^(-2*pi*i*k/n), from the given cosine and sine. */
  function Twiddle(cos: real -> real, sin: real -> real, k: nat, n: nat): Complex
    requires 0 < n
  {
    var angle := (-2.0 * PI * k as real) / n as real;
    Complex(cos(angle), sin(angle))
  }

  /** The elements at even indices, in order. */
  function Evens(x: seq<Complex>): (r: seq<Complex>)
    ensures |r| == (|x| + 1) / 2
    ensures forall i :: 0 <= i < |r| ==> r[i] == x[2 * i]
  {
    seq((|x| + 1) / 2, i requires 0 <= i < (|x| + 1) / 2 => x[2 * i])
  }

  /** The elements at odd indices, in order. */
  function Odds(x: seq<Complex>): (r: seq<Complex>)
    ensures |r| == |x| / 2
    ensures forall i :: 0 <= i < |r| ==> r[i] == x[2 * i + 1]
  {
    seq(|x| / 2, i requires 0 <= i < |x| / 2 => x[2 * i + 1])
  }

  /** Bin k of one radix-2 step from bin k mod N/2 of the even and odd half
      transforms: the sum for the lower half of the output, the difference for
      the upper half. */
  function Butterfly(cos: real -> real, sin: real -> real, even: seq<Complex>, odd: seq<Complex>, k: nat): Complex
    requires |even| == |odd| && k < 2 * |even|
  {
    var half := |even|;
    if k < half then Add(even[k], Mul(Twiddle(cos, sin, k, 2 * half), odd[k]))
    else Sub(even[k - half], Mul(Twiddle(cos, sin, k - half, 2 * half), odd[k - half]))
  }

  /** The butterflies of one radix-2 step. */
  function Combine(cos: real -> real, sin: real -> real, even: seq<Complex>, odd: seq<Complex>): (r: seq<Complex>)
    requires |even| == |odd|
    ensures |r| == 2 * |even|
    ensures forall k :: 0 <= k < |r| ==> r[k] == Butterfly(cos, sin, even, odd, k)
  {
    seq(2 * |even|, k requires 0 <= k < 2 * |even| => Butterfly(cos, sin, even, odd, k))
  }

  /** `fft`: inputs of length at most 1 are returned as they are; otherwise the even
      and odd halves are transformed and combined by butterflies. The source only
      ever calls it with a power-of-two length. */
  function Fft(cos: real -> real, sin: real -> real, x: seq<Complex>): (r: seq<Complex>)
    requires IsPowerOfTwo(|x|)
    ensures |r| == |x|
    ensures |x| <= 1 ==> r == x
    decreases |x|
  {
    if |x| <= 1 then x
    else Combine(cos, sin, Fft(cos, sin, Evens(x)), Fft(cos, sin, Odds(x)))
  }

  predicate AllZero(x: seq<Complex>) {
    forall i :: 0 <= i < |x| ==> x[i] == Zero
  }

  lemma TwiddleAtZero(cos: real -> real, sin: real -> real, n: nat)
    requires 0 < n
    ensures Twiddle(cos, sin, 0, n) == Complex(cos(0.0), sin(0.0))
  {
    assert (-2.0 * PI * 0 as real) / n as real == 0.0;
  }

  lemma ButterflyOfSilence(cos: real -> real, sin: real -> real, even: seq<Complex>, odd: seq<Complex>, k: nat)
    requires |even| == |odd| && k < 2 * |even|
    requires AllZero(even) && AllZero(odd)
    ensures Butterfly(cos, sin, even, odd, k) == Zero
  {
    var kk := if k < |even| then k else k - |even|;
    assert even[kk] == Zero && odd[kk] == Zero;
    var t := Twiddle(cos, sin, kk, 2 * |even|);
    assert Mul(t, Zero) == Complex(t.re * 0.0 - t.im * 0.0, t.re * 0.0 + t.im * 0.0);
  }

  lemma CombineOfSilence(cos: real -> real, sin: real -> real, even: seq<Complex>, odd: seq<Complex>)
    requires |even| == |odd| && AllZero(even) && AllZero(odd)
    ensures AllZero(Combine(cos, sin, even, odd))
  {
    forall k | 0 <= k < 2 * |even|
      ensures Butterfly(cos, sin, even, odd, k) == Zero
    {
      ButterflyOfSilence(cos, sin, even, odd, k);
    }
  }

  /** Silence in, silence out, whatever the twiddle factors are. */
  lemma {:induction false} FftOfSilence(cos: real -> real, sin: real -> real, x: seq<Complex>)
    requires IsPowerOfTwo(|x|)
    requires AllZero(x)
    ensures AllZero(Fft(cos, sin, x))
    decreases |x|
  {
    if |x| > 1 {
      FftOfSilence(cos, sin, Evens(x));
      FftOfSilence(cos, sin, Odds(x));
      CombineOfSilence(cos, sin, Fft(cos, sin, Evens(x)), Fft(cos, sin, Odds(x)));
    }
  }

  function ComplexSum(x: seq<Complex>): Complex
    decreases |x|
  {
    if |x| == 0 then Zero else Add(x[0], ComplexSum(x[1..]))
  }

  lemma {:induction false} EvensOddsSum(x: seq<Complex>)
    ensures Add(ComplexSum(Evens(x)), ComplexSum(Odds(x))) == ComplexSum(x)
    decreases |x|
  {
    if |x| == 0 {
    } else if |x| == 1 {
      assert Evens(x)[1..] == [];
    } else {
      var rest := x[2..];
      EvensOddsSum(rest);
      assert Evens(x)[1..] == Evens(rest);
      assert Odds(x)[1..] == Odds(rest);
      assert x[1..][1..] == rest;
    }
  }

  /** The zero-frequency bin is the plain sum of the input, given only that
      cos(0) = 1 and sin(0) = 0. */
  lemma {:induction false} FftZeroBinIsSum(cos: real -> real, sin: real -> real, x: seq<Complex>)
    requires IsPowerOfTwo(|x|)
    requires cos(0.0) == 1.0 && sin(0.0) == 0.0
    ensures Fft(cos, sin, x)[0] == ComplexSum(x)
    decreases |x|
  {
    if |x| == 1 {
      assert x[1..] == [];
    } else {
      var even := Fft(cos, sin, Evens(x));
      var odd := Fft(cos, sin, Odds(x));
      FftZeroBinIsSum(cos, sin, Evens(x));
      FftZeroBinIsSum(cos, sin, Odds(x));
      TwiddleAtZero(cos, sin, |x|);
      assert Combine(cos, sin, even, odd)[0] == Add(even[0], Mul(Complex(1.0, 0.0), odd[0]));
      assert Mul(Complex(1.0, 0.0), odd[0]) == odd[0];
      EvensOddsSum(x);
    }
  }

  /** `rfft`: the real input as complex values, transformed, of which the first
      floor(N/2) + 1 bins are kept. */
  function Rfft(cos: real -> real, sin: real -> real, samples: seq<real>): (r: seq<Complex>)
    requires IsPowerOfTwo(|samples|)
    ensures |r| == |samples| / 2 + 1
    ensures forall k :: 0 <= k < |r| ==> r[k] == Fft(cos, sin, AsComplex(samples))[k]
  {
    Fft(cos, sin, AsComplex(samples))[..|samples| / 2 + 1]
  }

  function AsComplex(samples: seq<real>): (r: seq<Complex>)
    ensures |r| == |samples|
    ensures forall i :: 0 <= i < |r| ==> r[i] == Complex(samples[i], 0.0)
  {
    seq(|samples|, i requires 0 <= i < |samples| => Complex(samples[i], 0.0))
  }

  /** The modulus of one bin. */
  function Modulus(sqrt: real -> real, c: Complex): real {
    sqrt(c.re * c.re + c.im * c.im)
  }

  lemma ModulusNonNegative(sqrt: real -> real, c: Complex)
    requires SqrtLaws(sqrt)
    ensures 0.0 <= Modulus(sqrt, c)
    ensures c == Zero ==> Modulus(sqrt, c) == 0.0
  {
    var a := if c.re < 0.0 then -c.re else c.re;
    var b := if c.im < 0.0 then -c.im else c.im;
    RealFacts.NonNegativeProduct(a, a);
    RealFacts.NonNegativeProduct(b, b);
    assert c.re * c.re == a * a && c.im * c.im == b * b;
    SqrtOfZero(sqrt);
  }

  lemma ModuliNonNegative(sqrt: real -> real, bins: seq<Complex>)
    ensures SqrtLaws(sqrt) ==> forall k :: 0 <= k < |bins| ==>
      0.0 <= Modulus(sqrt, bins[k]) && (bins[k] == Zero ==> Modulus(sqrt, bins[k]) == 0.0)
  {
    if SqrtLaws(sqrt) {
      forall k | 0 <= k < |bins|
        ensures 0.0 <= Modulus(sqrt, bins[k]) && (bins[k] == Zero ==> Modulus(sqrt, bins[k]) == 0.0)
      {
        ModulusNonNegative(sqrt, bins[k]);
      }
    }
  }

  /** `calculateMagnitudes`: one modulus per bin, never negative. */
  function CalculateMagnitudes(sqrt: real -> real, bins: seq<Complex>): (r: seq<real>)
    ensures |r| == |bins|
    ensures SqrtLaws(sqrt) ==> AllNonNegative(r)
    ensures SqrtLaws(sqrt) ==> forall k :: 0 <= k < |r| && bins[k] == Zero ==> r[k] == 0.0
  {
    ModuliNonNegative(sqrt, bins);
    seq(|bins|, k requires 0 <= k < |bins| => Modulus(sqrt, bins[k]))
  }

  /** `rfftfreq(nfft, d)`: floor(nfft/2) + 1 bins, bin i at i / (nfft * d) Hz. */
  function RfftFreq(nfft: nat, d: real): (r: seq<real>)
    requires 1 <= nfft && 0.0 < d
    ensures |r| == nfft / 2 + 1
    ensures r[0] == 0.0
    ensures forall i :: 0 <= i < |r| ==> r[i] * (nfft as real * d) == i as real
    ensures forall i, j :: 0 <= i < j < |r| ==> r[i] < r[j]
  {
    var width := nfft as real * d;
    RealFacts.PositiveProduct(nfft as real, d);
    var r := seq(nfft / 2 + 1, i requires 0 <= i < nfft / 2 + 1 => i as real / width);
    assert forall i, j :: 0 <= i < j < |r| ==> r[i] < r[j] by {
      forall i, j | 0 <= i < j < |r|
        ensures r[i] < r[j]
      {
        QuotientStrictlyMonotone(i as real, j as real, width);
      }
    }
    r
  }

  lemma QuotientStrictlyMonotone(a: real, b: real, c: real)
    requires a < b && 0.0 < c
    ensures a / c < b / c
  {
    assert b / c - a / c == (b - a) / c;
    RealFacts.PositiveProduct(b - a, 1.0 / c);
  }

  /** Bin spacing: with d = 1/rate, bin i lies at i * rate / nfft Hz. */
  lemma BinFrequency(x: real, i: nat, nfft: nat, rate: real)
    requires 1 <= nfft && 0.0 < rate
    requires x * (nfft as real * (1.0 / rate)) == i as real
    ensures x == i as real * rate / nfft as real
  {
    var n := nfft as real;
    calc {
      i as real * rate / n;
      (x * (n * (1.0 / rate))) * rate / n;
      x * n * ((1.0 / rate) * rate) / n;
      x * n / n;
      x;
    }
  }

  // ---------------------------------------------------------------------------
  // performFFT

  /** The bins of a transform of `size` samples at `rate` Hz: floor(size/2) + 1
      ascending frequencies from 0, bin k at k * rate / size Hz. */
  predicate IsBinLayout(frequencies: seq<real>, size: nat, rate: real) {
    && 1 <= size
    && |frequencies| == size / 2 + 1
    && frequencies[0] == 0.0
    && (forall k :: 0 <= k < |frequencies| ==> frequencies[k] == k as real * rate / size as real)
    && (forall i, j :: 0 <= i < j < |frequencies| ==> frequencies[i] < frequencies[j])
  }

  /** `rfftfreq(size, 1 / rate)`. */
  function FrequencyBins(size: nat, rate: real): (r: seq<real>)
    requires 1 <= size && 0.0 < rate
    ensures IsBinLayout(r, size, rate)
  {
    var r := RfftFreq(size, 1.0 / rate);
    assert forall k :: 0 <= k < |r| ==> r[k] == k as real * rate / size as real by {
      forall k | 0 <= k < |r|
        ensures r[k] == k as real * rate / size as real
      {
        BinFrequency(r[k], k, size, rate);
      }
    }
    r
  }

  /** What `performFFT` returns. With a single input sample the Hamming window is
      NaN, so every magnitude of the result is NaN: that result is `NaNSpectrum`,
      which keeps the (well-defined) frequency bins and size. */
  datatype Spectrum =
    | Spectrum(frequencies: seq<real>, magnitudes: seq<real>, nfft: nat)
    | NaNSpectrum(frequencies: seq<real>, nfft: nat)

  /** `performFFT(samples, nfft)` on a processor with a finite positive rate. */
  function PerformFft(
    cos: real -> real, sin: real -> real, sqrt: real -> real,
    p: Processor, samples: seq<real>, nfft: Number): (r: Result<Spectrum, FftError>)
    requires p.sampleRate.Finite? && 0.0 < p.sampleRate.value
    ensures |samples| == 0 ==> r == Err(EmptySamples)
    ensures 0 < |samples| && !IsValidFftSize(nfft) ==> r == Err(InvalidFftSize(nfft))
    ensures r.Ok? <==> 0 < |samples| && IsValidFftSize(nfft)
    ensures r.Ok? ==> (r.value.NaNSpectrum? <==> |samples| == 1)
    ensures r.Ok? ==>
      && 1 <= r.value.nfft
      && IsPowerOfTwo(r.value.nfft)
      && nfft.value <= r.value.nfft as real < 2.0 * nfft.value
      && (IsPowerOfTwo(nfft.value.Floor as nat) ==> r.value.nfft as real == nfft.value)
    ensures r.Ok? ==> IsBinLayout(r.value.frequencies, r.value.nfft, p.sampleRate.value)
    ensures r.Ok? && r.value.Spectrum? ==>
      && |r.value.magnitudes| == |r.value.frequencies|
      && (SqrtLaws(sqrt) ==> AllNonNegative(r.value.magnitudes))
  {
    if |samples| == 0 then Err(EmptySamples)
    else if !IsValidFftSize(nfft) then Err(InvalidFftSize(nfft))
    else
      var size := EffectiveFftSize(nfft.value.Floor as nat);
      var frequencies := FrequencyBins(size, p.sampleRate.value);
      match HammingWindow(cos, samples)
      case None => Ok(NaNSpectrum(frequencies, size))
      case Some(windowed) =>
        var magnitudes := CalculateMagnitudes(sqrt, Rfft(cos, sin, PadSamples(windowed, size)));
        Ok(Spectrum(frequencies, magnitudes, size))
  }

  /** A call with the default size of 2048 keeps that size and lays out 1025
      frequency bins; with at least two samples the spectrum is not the NaN one. */
  lemma DefaultSizeGivesBins(cos: real -> real, sin: real -> real, sqrt: real -> real, p: Processor, samples: seq<real>)
    requires p.sampleRate.Finite? && 0.0 < p.sampleRate.value
    requires 2 <= |samples|
    ensures var r := PerformFft(cos, sin, sqrt, p, samples, Finite(DEFAULT_FFT_SIZE as real));
      && r.Ok? && r.value.Spectrum?
      && r.value.nfft == DEFAULT_FFT_SIZE
      && |r.value.frequencies| == |r.value.magnitudes| == 1025
  {
  }

  // ---------------------------------------------------------------------------
  // Spectral features: reference definitions

  /** `i` is the first index of a maximal magnitude. */
  predicate IsFirstMax(m: seq<real>, i: nat) {
    && i < |m|
    && (forall j :: 0 <= j < |m| ==> m[j] <= m[i])
    && (forall j :: 0 <= j < i ==> m[j] < m[i])
  }

  lemma FirstMaxIsUnique(m: seq<real>, i: nat, j: nat)
    requires IsFirstMax(m, i) && IsFirstMax(m, j)
    ensures i == j
  {
    assert m[i] == m[j];
  }

  /** The running sum of `norm` up to and including bin `i`. */
  function RunningSum(norm: seq<real>, i: nat): real
    requires i < |norm|
  {
    Sum(norm[..i + 1])
  }

  /** `i` is the first index at which the running sum reaches the rolloff share,
      or the last index when it never does. */
  predicate IsRolloffIndex(norm: seq<real>, i: nat) {
    && i < |norm|
    && (forall j :: 0 <= j < i ==> RunningSum(norm, j) < ROLLOFF_SHARE)
    && (ROLLOFF_SHARE <= RunningSum(norm, i) || i == |norm| - 1)
  }

  lemma RolloffIndexIsUnique(norm: seq<real>, i: nat, j: nat)
    requires IsRolloffIndex(norm, i) && IsRolloffIndex(norm, j)
    ensures i == j
  {
  }

  /** A part of the total magnitude of `m`, divided by that total plus `EPSILON`. */
  function Share(part: real, m: seq<real>): real
    requires AllNonNegative(m)
  {
    SumNonNegative(m);
    part / (Sum(m) + EPSILON)
  }

  /** Magnitudes divided by their total plus `EPSILON`: non-negative values whose
      sum is the total's share, which is below 1. */
  function Normalize(m: seq<real>): (r: seq<real>)
    requires AllNonNegative(m)
    ensures |r| == |m|
    ensures AllNonNegative(r)
    ensures Sum(r) == Share(Sum(m), m) < 1.0
  {
    SumNonNegative(m);
    var d := Sum(m) + EPSILON;
    var r := seq(|m|, i requires 0 <= i < |m| => m[i] / d);
    assert AllNonNegative(r) by {
      forall i | 0 <= i < |m|
        ensures 0.0 <= r[i]
      {
        RealFacts.NonNegativeProduct(m[i], 1.0 / d);
      }
    }
    SumOfQuotients(m, r, d);
    RealFacts.QuotientBelowOne(Sum(m), d);
    r
  }

  /** Element-wise products. */
  function Products(a: seq<real>, b: seq<real>): (r: seq<real>)
    requires |a| == |b|
    ensures |r| == |a|
    ensures forall i :: 0 <= i < |r| ==> r[i] == a[i] * b[i]
  {
    seq(|a|, i requires 0 <= i < |a| => a[i] * b[i])
  }

  /** Magnitude-weighted mean frequency. */
  function Centroid(f: seq<real>, norm: seq<real>): real
    requires |f| == |norm|
  {
    Sum(Products(f, norm))
  }

  /** With non-negative frequencies up to `top` and non-negative weights, the
      centroid lies between 0 and `top` times the total weight. */
  lemma {:induction false} CentroidBounds(f: seq<real>, norm: seq<real>, top: real)
    requires |f| == |norm| && AllNonNegative(f) && AllNonNegative(norm)
    requires forall i :: 0 <= i < |f| ==> f[i] <= top
    ensures 0.0 <= Centroid(f, norm) <= top * Sum(norm)
  {
    var terms := Products(f, norm);
    var bounds := Products(seq(|f|, _ => top), norm);
    forall i | 0 <= i < |f|
      ensures 0.0 <= terms[i] <= bounds[i]
    {
      RealFacts.WeightedBound(f[i], norm[i], top);
    }
    SumNonNegative(terms);
    SumMonotone(terms, bounds);
    SumOfScaled(norm, bounds, top);
  }

  function Deviations(f: seq<real>, norm: seq<real>, centroid: real): (r: seq<real>)
    requires |f| == |norm| && AllNonNegative(norm)
    ensures |r| == |f| && AllNonNegative(r)
  {
    var r := seq(|f|, i requires 0 <= i < |f| =>
      (f[i] - centroid) * (f[i] - centroid) * norm[i]);
    assert AllNonNegative(r) by {
      forall i | 0 <= i < |f|
        ensures 0.0 <= r[i]
      {
        var d := f[i] - centroid;
        var a := if d < 0.0 then -d else d;
        RealFacts.NonNegativeProduct(a, a);
        assert d * d == a * a;
        RealFacts.NonNegativeProduct(d * d, norm[i]);
      }
    }
    r
  }

  /** Square root of the weighted variance of the frequencies around the centroid. */
  function Spread(sqrt: real -> real, f: seq<real>, norm: seq<real>, centroid: real): (r: real)
    requires |f| == |norm| && AllNonNegative(norm)
    ensures SqrtLaws(sqrt) ==> 0.0 <= r
  {
    var deviations := Deviations(f, norm, centroid);
    SumNonNegative(deviations);
    sqrt(Sum(deviations))
  }

  lemma PositiveWhenExpLaws(exp: real -> real, x: real, y: real)
    requires 0.0 < y
    ensures ExpLaws(exp) ==> 0.0 < exp(x) / y
  {
    if ExpLaws(exp) {
      RealFacts.QuotientOfPositives(exp(x), y);
    }
  }

  /** Geometric mean (through `exp` of the mean `ln`) over arithmetic mean. */
  function Flatness(exp: real -> real, ln: real -> real, m: seq<real>): (r: real)
    requires 0 < |m| && AllNonNegative(m)
    ensures ExpLaws(exp) ==> 0.0 < r
  {
    var n := |m| as real;
    var logMean := Sum(seq(|m|, i requires 0 <= i < |m| => ln(m[i] + EPSILON))) / n;
    var arithmeticMean := Sum(m) / n;
    SumNonNegative(m);
    RealFacts.NonNegativeProduct(Sum(m), 1.0 / n);
    PositiveWhenExpLaws(exp, logMean, arithmeticMean + EPSILON);
    exp(logMean) / (arithmeticMean + EPSILON)
  }

  /** Shannon entropy (base 2) of the normalized magnitudes, skipping empty bins. */
  function Entropy(log2: real -> real, norm: seq<real>): real {
    -Sum(seq(|norm|, i requires 0 <= i < |norm| =>
      if norm[i] > 0.0 then norm[i] * log2(norm[i] + EPSILON) else 0.0))
  }

  datatype Band = LowBand | MidBand | HighBand

  /** The band of a bin: the `if / else if / else` chain of the band loop. */
  function BandOf(frequency: real): Band {
    if frequency < LOW_CUTOFF then LowBand
    else if frequency < MID_CUTOFF then MidBand
    else HighBand
  }

  /** Total magnitude of the bins whose frequency lies in `band`. */
  function BandSum(f: seq<real>, m: seq<real>, band: Band): real
    requires |f| == |m|
    decreases |f|
  {
    if |f| == 0 then 0.0
    else
      BandSum(f[..|f| - 1], m[..|m| - 1], band)
      + (if BandOf(f[|f| - 1]) == band then m[|m| - 1] else 0.0)
  }

  /** Every bin is in exactly one band, so the three band sums add up to the total. */
  lemma {:induction false} BandSumsPartitionTotal(f: seq<real>, m: seq<real>)
    requires |f| == |m|
    ensures BandSum(f, m, LowBand) + BandSum(f, m, MidBand) + BandSum(f, m, HighBand) == Sum(m)
    decreases |f|
  {
    if |f| > 0 {
      BandSumsPartitionTotal(f[..|f| - 1], m[..|m| - 1]);
    }
  }

  lemma {:induction false} BandSumNonNegative(f: seq<real>, m: seq<real>, band: Band)
    requires |f| == |m| && AllNonNegative(m)
    ensures 0.0 <= BandSum(f, m, band)
    decreases |f|
  {
    if |f| > 0 {
      BandSumNonNegative(f[..|f| - 1], m[..|m| - 1], band);
    }
  }

  /** Each band's share of the total lies in [0, 1]; the three shares add up to
      the total's share, which is below 1. */
  lemma BandRatios(f: seq<real>, m: seq<real>)
    requires |f| == |m| && AllNonNegative(m)
    ensures forall band :: 0.0 <= Share(BandSum(f, m, band), m) <= 1.0
    ensures Share(BandSum(f, m, LowBand), m) + Share(BandSum(f, m, MidBand), m)
            + Share(BandSum(f, m, HighBand), m) == Share(Sum(m), m)
    ensures Share(Sum(m), m) < 1.0
  {
    SumNonNegative(m);
    BandSumsPartitionTotal(f, m);
    BandSumNonNegative(f, m, LowBand);
    BandSumNonNegative(f, m, MidBand);
    BandSumNonNegative(f, m, HighBand);
    var d := Sum(m) + EPSILON;
    forall band
      ensures 0.0 <= Share(BandSum(f, m, band), m) <= 1.0
    {
      RealFacts.QuotientInUnitInterval(BandSum(f, m, band), d);
    }
    var l, md, h := BandSum(f, m, LowBand), BandSum(f, m, MidBand), BandSum(f, m, HighBand);
    RealFacts.QuotientSum(l, md, d);
    RealFacts.QuotientSum(l + md, h, d);
    RealFacts.QuotientBelowOne(Sum(m), d);
  }

  /** The ratios as the source computes them, over the sum of the three band
      energies, are the bands' shares of the total magnitude. */
  lemma EnergyRatios(f: seq<real>, m: seq<real>, low: real, mid: real, high: real)
    requires |f| == |m| && AllNonNegative(m)
    requires low == BandSum(f, m, LowBand) && mid == BandSum(f, m, MidBand) && high == BandSum(f, m, HighBand)
    ensures 0.0 < low + mid + high + EPSILON
    ensures low / (low + mid + high + EPSILON) == Share(BandSum(f, m, LowBand), m)
    ensures mid / (low + mid + high + EPSILON) == Share(BandSum(f, m, MidBand), m)
    ensures high / (low + mid + high + EPSILON) == Share(BandSum(f, m, HighBand), m)
    ensures 0.0 <= Share(BandSum(f, m, LowBand), m) <= 1.0
    ensures 0.0 <= Share(BandSum(f, m, MidBand), m) <= 1.0
    ensures 0.0 <= Share(BandSum(f, m, HighBand), m) <= 1.0
    ensures Share(BandSum(f, m, LowBand), m) + Share(BandSum(f, m, MidBand), m)
            + Share(BandSum(f, m, HighBand), m) < 1.0
  {
    BandSumsPartitionTotal(f, m);
    SumNonNegative(m);
    BandRatios(f, m);
  }

  // ---------------------------------------------------------------------------
  // Spectral features: the loops of extractSpectralFeatures

  /** The rolloff loop: accumulate normalized magnitudes and stop at the first bin
      where the running sum reaches 0.85; the last bin otherwise. */
  method RolloffIndex(norm: seq<real>) returns (index: nat)
    requires 0 < |norm|
    ensures IsRolloffIndex(norm, index)
  {
    var cumulative := 0.0;
    index := |norm| - 1;
    var i := 0;
    while i < |norm|
      invariant 0 <= i <= |norm|
      invariant cumulative == Sum(norm[..i])
      invariant forall j :: 0 <= j < i ==> RunningSum(norm, j) < ROLLOFF_SHARE
      invariant index == |norm| - 1
    {
      SumStep(norm, i);
      cumulative := cumulative + norm[i];
      if cumulative >= ROLLOFF_SHARE {
        index := i;
        return;
      }
      i := i + 1;
    }
  }

  /** The dominant-bin loop: starting from -Infinity (`None`), a bin replaces the
      current maximum only when strictly greater, so the first maximum wins. */
  method DominantIndex(m: seq<real>) returns (index: nat)
    requires 0 < |m|
    ensures IsFirstMax(m, index)
  {
    var maxMagnitude: Option<real> := None;
    index := 0;
    var i := 0;
    while i < |m|
      invariant 0 <= i <= |m|
      invariant index < |m|
      invariant i == 0 <==> maxMagnitude.None?
      invariant 0 < i ==> index < i && maxMagnitude == Some(m[index])
      invariant forall j :: 0 <= j < i ==> m[j] <= m[index]
      invariant forall j :: 0 <= j < index ==> m[j] < m[index]
    {
      if maxMagnitude.None? || m[i] > maxMagnitude.value {
        maxMagnitude := Some(m[i]);
        index := i;
      }
      i := i + 1;
    }
  }

  /** The band loop: each bin's magnitude goes to exactly one accumulator. */
  method BandEnergies(f: seq<real>, m: seq<real>) returns (low: real, mid: real, high: real)
    requires |f| == |m|
    ensures low == BandSum(f, m, LowBand)
    ensures mid == BandSum(f, m, MidBand)
    ensures high == BandSum(f, m, HighBand)
  {
    low, mid, high := 0.0, 0.0, 0.0;
    var i := 0;
    while i < |f|
      invariant 0 <= i <= |f|
      invariant low == BandSum(f[..i], m[..i], LowBand)
      invariant mid == BandSum(f[..i], m[..i], MidBand)
      invariant high == BandSum(f[..i], m[..i], HighBand)
    {
      assert f[..i + 1][..i] == f[..i];
      assert m[..i + 1][..i] == m[..i];
      if f[i] < LOW_CUTOFF {
        low := low + m[i];
      } else if f[i] < MID_CUTOFF {
        mid := mid + m[i];
      } else {
        high := high + m[i];
      }
      i := i + 1;
    }
    assert f[..i] == f && m[..i] == m;
  }

  /** The features of one spectrum that do not depend on a transcendental function,
      as `extractSpectralFeatures` computes them. */
  ghost predicate IsFeatureSetOf(f: seq<real>, m: seq<real>, features: SpectralFeatures)
    requires |f| == |m| && AllNonNegative(m)
  {
    && features.spectralCentroid == Centroid(f, Normalize(m))
    && (exists i: nat :: IsFirstMax(m, i) && features.dominantFrequency == f[i])
    && (exists i: nat :: IsRolloffIndex(Normalize(m), i) && features.spectralRolloff == f[i])
    && features.lowFreqRatio == Share(BandSum(f, m, LowBand), m)
    && features.midFreqRatio == Share(BandSum(f, m, MidBand), m)
    && features.highFreqRatio == Share(BandSum(f, m, HighBand), m)
  }

  lemma FeatureSetFromIndices(
    f: seq<real>, m: seq<real>, features: SpectralFeatures, dominant: nat, rolloff: nat)
    requires |f| == |m| && AllNonNegative(m)
    requires IsFirstMax(m, dominant) && features.dominantFrequency == f[dominant]
    requires IsRolloffIndex(Normalize(m), rolloff) && features.spectralRolloff == f[rolloff]
    requires features.spectralCentroid == Centroid(f, Normalize(m))
    requires features.lowFreqRatio == Share(BandSum(f, m, LowBand), m)
    requires features.midFreqRatio == Share(BandSum(f, m, MidBand), m)
    requires features.highFreqRatio == Share(BandSum(f, m, HighBand), m)
    ensures IsFeatureSetOf(f, m, features)
  {
  }

  /** `extractSpectralFeatures`. Magnitudes are non-negative, as `performFFT`
      produces them. */
  method ExtractSpectralFeatures(
    sqrt: real -> real, ln: real -> real, exp: real -> real, log2: real -> real,
    frequencies: seq<real>, magnitudes: seq<real>) returns (r: Result<SpectralFeatures, FftError>)
    requires AllNonNegative(magnitudes)
    ensures |frequencies| == 0 || |magnitudes| == 0 ==> r == Err(EmptyArrays)
    ensures 0 < |frequencies| && 0 < |magnitudes| && |frequencies| != |magnitudes| ==>
      r == Err(LengthMismatch(|frequencies|, |magnitudes|))
    ensures r.Ok? <==> 0 < |frequencies| == |magnitudes|
    ensures r.Ok? ==> IsFeatureSetOf(frequencies, magnitudes, r.value)
    ensures r.Ok? ==>
      && 0.0 <= r.value.lowFreqRatio <= 1.0
      && 0.0 <= r.value.midFreqRatio <= 1.0
      && 0.0 <= r.value.highFreqRatio <= 1.0
      && r.value.lowFreqRatio + r.value.midFreqRatio + r.value.highFreqRatio < 1.0
    ensures r.Ok? && SqrtLaws(sqrt) ==> 0.0 <= r.value.spectralSpread
    ensures r.Ok? && ExpLaws(exp) ==> 0.0 < r.value.spectralFlatness
  {
    if |frequencies| == 0 || |magnitudes| == 0 {
      return Err(EmptyArrays);
    }
    if |frequencies| != |magnitudes| {
      return Err(LengthMismatch(|frequencies|, |magnitudes|));
    }
    var norm := Normalize(magnitudes);
    var centroid := Centroid(frequencies, norm);
    var spread := Spread(sqrt, frequencies, norm, centroid);
    var rolloffIndex := RolloffIndex(norm);
    var flatness := Flatness(exp, ln, magnitudes);
    var entropy := Entropy(log2, norm);
    var dominantIndex := DominantIndex(magnitudes);

    var low, mid, high := BandEnergies(frequencies, magnitudes);
    var totalEnergy := low + mid + high + EPSILON;
    EnergyRatios(frequencies, magnitudes, low, mid, high);
    var lowRatio, midRatio, highRatio := low / totalEnergy, mid / totalEnergy, high / totalEnergy;
    assert 0.0 <= lowRatio <= 1.0 && 0.0 <= midRatio <= 1.0 && 0.0 <= highRatio <= 1.0;
    assert lowRatio + midRatio + highRatio < 1.0;

    r := Ok(SpectralFeatures(
      centroid, spread, frequencies[rolloffIndex], flatness, entropy,
      frequencies[dominantIndex], lowRatio, midRatio, highRatio));
    FeatureSetFromIndices(frequencies, magnitudes, r.value, dominantIndex, rolloffIndex);
  }
}
