/**
 * The spectral decision helpers of Musync/Musync/FFTHelper.cs: the analysis
 * constants, the ordered-threshold colour buckets, the beat threshold, and the
 * truncating frequency/bin-index conversions against a settable sample rate.
 *
 * Doubles are modelled as reals; the NaN test of FreqToColor is not modelled.
 */
module FFTHelper {
  import opened Blync

  const FftLength: int := 16384
  const MinBassFreq: int := 20
  const MaxBassFreq: int := 200
  const DefaultSampleRate: real := 48000.0

  /** The beat threshold on the bass peak magnitude. */
  const PulseThreshold: real := 0.7

  /** The colour bucket of a squared ratio `v`, as a table of half-open
      intervals (lower bound excluded, upper bound included). */
  predicate InBucket(v: real, c: LyncColor)
  {
    match c
    case White => v == 0.0
    case Red => v != 0.0 && v <= 2.0
    case Magenta => 2.0 < v <= 2.25
    case Blue => 2.25 < v <= 3.5
    case Cyan => 3.5 < v <= 3.75
    case Green => 3.75 < v <= 4.0
    case Yellow => 4.0 < v
  }

  /** FreqToColor(ratio): the bucket of ratio squared, tested from the highest
      threshold down. */
  function FreqToColor(ratio: real): (c: LyncColor)
    ensures InBucket(ratio * ratio, c)
    ensures c == White <==> ratio * ratio == 0.0
  {
    var v := ratio * ratio;
    if v == 0.0 then White
    else if v > 4.0 then Yellow
    else if v > 3.75 then Green
    else if v > 3.5 then Cyan
    else if v > 2.25 then Blue
    else if v > 2.0 then Magenta
    else Red
  }

  /** The buckets do not overlap: each value lies in at most one. */
  lemma BucketsDisjoint(v: real, c1: LyncColor, c2: LyncColor)
    requires InBucket(v, c1) && InBucket(v, c2)
    ensures c1 == c2
  {
  }

  /** FreqToColor picks exactly the bucket the table assigns. */
  lemma FreqToColorIsBucket(ratio: real, c: LyncColor)
    ensures FreqToColor(ratio) == c <==> InBucket(ratio * ratio, c)
  {
    if InBucket(ratio * ratio, c) {
      BucketsDisjoint(ratio * ratio, c, FreqToColor(ratio));
    }
  }

  /** Only the square of the ratio matters. */
  lemma FreqToColorSymmetric(ratio: real)
    ensures FreqToColor(-ratio) == FreqToColor(ratio)
  {
    assert (-ratio) * (-ratio) == ratio * ratio;
  }

  /** The position of a colour in the order of the thresholds (White lowest). */
  function BucketRank(c: LyncColor): nat
  {
    match c
    case White => 0
    case Red => 1
    case Magenta => 2
    case Blue => 3
    case Cyan => 4
    case Green => 5
    case Yellow => 6
  }

  /** A larger squared ratio never selects a lower bucket. */
  lemma FreqToColorMonotone(r1: real, r2: real)
    requires r1 * r1 <= r2 * r2
    ensures BucketRank(FreqToColor(r1)) <= BucketRank(FreqToColor(r2))
  {
    assert r1 * r1 >= 0.0 && r2 * r2 >= 0.0;
  }

  /** ShouldPulse(psd): a beat for this cycle. */
  function ShouldPulse(psd: real): bool
  {
    psd > 0.7
  }

  /** The C# double-to-int cast: truncation toward zero. */
  function Trunc(x: real): (k: int)
    ensures x >= 0.0 ==> 0 <= k && k as real <= x < k as real + 1.0
    ensures x < 0.0 ==> k <= 0 && k as real - 1.0 < x <= k as real
  {
    if x >= 0.0 then x.Floor else -((-x).Floor)
  }

  lemma TruncMonotone(x: real, y: real)
    requires x <= y
    ensures Trunc(x) <= Trunc(y)
  {
  }

  lemma TruncOfInt(k: int)
    ensures Trunc(k as real) == k
  {
  }

  /** FreqToIndex(freq) against the sample rate `rate`. */
  function FreqToIndex(freq: real, rate: real): (k: int)
    requires rate > 0.0
    ensures freq >= 0.0 ==> 0 <= k && k as real <= freq * FftLength as real / rate < k as real + 1.0
  {
    var x := freq * FftLength as real / rate;
    DivMonotone(0.0, freq * FftLength as real, rate);
    Trunc(x)
  }

  /** IndexToFreq(index) against the sample rate `rate`. */
  function IndexToFreq(index: real, rate: real): (f: real)
    requires rate > 0.0
    ensures f * FftLength as real == index * rate
  {
    index * rate / FftLength as real
  }

  /** A higher frequency never maps to a lower bin. */
  lemma FreqToIndexMonotone(f1: real, f2: real, rate: real)
    requires rate > 0.0 && f1 <= f2
    ensures FreqToIndex(f1, rate) <= FreqToIndex(f2, rate)
  {
    assert f1 * FftLength as real <= f2 * FftLength as real;
    DivMonotone(f1 * FftLength as real, f2 * FftLength as real, rate);
    TruncMonotone(f1 * FftLength as real / rate, f2 * FftLength as real / rate);
  }

  lemma DivMonotone(a: real, b: real, d: real)
    requires d > 0.0
    ensures a <= b ==> a / d <= b / d
  {
    assert b / d - a / d == (b - a) / d;
    if a <= b {
      assert (b - a) / d * d == b - a;
    }
  }

  /** Converting a bin index to its frequency and back gives the index again. */
  lemma IndexRoundTrip(k: int, rate: real)
    requires rate > 0.0
    ensures FreqToIndex(IndexToFreq(k as real, rate), rate) == k
  {
    var f := IndexToFreq(k as real, rate);
    assert f * FftLength as real / rate == k as real by {
      assert f * FftLength as real == k as real * rate;
    }
    TruncOfInt(k);
  }

  /** The band edges at the default rate of 48 kHz. */
  lemma DefaultRateBandEdges()
    ensures FreqToIndex(MinBassFreq as real, DefaultSampleRate) == 6
    ensures FreqToIndex(MaxBassFreq as real, DefaultSampleRate) == 68
    ensures FreqToIndex(1000.0, DefaultSampleRate) == 341
    ensures FreqToIndex(4000.0, DefaultSampleRate) == 1365
  {
  }

  /** The static sample-rate setting that both conversions read. */
  class FftHelper {
    var sampleRate: real

    constructor ()
      ensures sampleRate == DefaultSampleRate
    {
      sampleRate := DefaultSampleRate;
    }

    /** SetSampleRate(fs): the new rate, nothing else changes. */
    method SetSampleRate(fs: real)
      modifies this
      ensures sampleRate == fs
    {
      sampleRate := fs;
    }
  }
}
