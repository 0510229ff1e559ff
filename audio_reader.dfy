/**
 * The linear frequency-to-colour bucketing of Musync/Musync/AudioReader.cs,
 * which nothing in the program calls. The result is the colour's underlying
 * enum value: the cast in the source can produce values the enum does not
 * declare, and the model keeps them visible.
 */
module AudioReader {
  import opened Wrappers
  import opened Blync
  import FFTHelper

  const MinFreq: int := 500
  const MaxFreq: int := 16000

  /** Width of one bucket: integer division of the 15500 Hz span by 8. */
  const Step: int := (MaxFreq - MinFreq) / 8

  lemma StepValue()
    ensures Step == 1937
  {
  }

  /** The bucket index for an in-range frequency. */
  function BucketIndex(freq: real): (k: int)
    requires MinFreq as real <= freq <= MaxFreq as real
    ensures 0 <= k <= 8
    ensures k as real * Step as real <= freq - MinFreq as real < (k + 1) as real * Step as real
  {
    StepValue();
    var x := (freq - MinFreq as real) / Step as real;
    var k := FFTHelper.Trunc(x);
    assert x * 1937.0 == freq - 500.0;
    k
  }

  /** FreqToColor(freq), as the colour's underlying enum value. */
  function FreqToColor(freq: real): (code: int)
    ensures freq < MinFreq as real ==> code == Code(White)
    ensures freq > MaxFreq as real ==> code == Code(Magenta)
    ensures MinFreq as real <= freq <= MaxFreq as real ==> code == BucketIndex(freq)
  {
    if freq < MinFreq as real then Code(White)
    else if freq > MaxFreq as real then Code(Magenta)
    else BucketIndex(freq)
  }

  /** Within the range the bucket index never decreases with the frequency. */
  lemma BucketIndexMonotone(f1: real, f2: real)
    requires MinFreq as real <= f1 <= f2 <= MaxFreq as real
    ensures BucketIndex(f1) <= BucketIndex(f2)
  {
    FFTHelper.DivMonotone(f1 - MinFreq as real, f2 - MinFreq as real, Step as real);
    FFTHelper.TruncMonotone((f1 - MinFreq as real) / Step as real, (f2 - MinFreq as real) / Step as real);
  }

  /** From 500 + 7 * 1937 Hz up to 16000 Hz the index is 7 or 8, which no
      declared colour has. */
  lemma TopBucketsUndeclared(freq: real)
    requires (MinFreq + 7 * Step) as real <= freq <= MaxFreq as real
    ensures FreqToColor(freq) == 7 || FreqToColor(freq) == 8
    ensures OfCode(FreqToColor(freq)) == None
  {
    StepValue();
    var k := BucketIndex(freq);
  }

  /** Below 500 + 7 * 1937 Hz every in-range result is a declared colour. */
  lemma LowerBucketsDeclared(freq: real)
    requires freq < (MinFreq + 7 * Step) as real
    ensures OfCode(FreqToColor(freq)).Some?
  {
    if MinFreq as real <= freq {
      StepValue();
      var k := BucketIndex(freq);
    }
  }
}
