/**
 * The analysis cycle of Musync/Musync.cs stated on values: stereo-to-mono
 * averaging, band metrics over a magnitude spectrum, the band-power ratio,
 * the running mean with silence detection, the colour and pulse decision,
 * the colour menu, and one cycle of the analysis loop as a state transition.
 * The class in musync.dfy is proved to implement these functions.
 *
 * The FFT is not modelled: each cycle receives the magnitude spectrum of the
 * window it dequeues as an input sequence of non-negative reals.
 */
module Analysis {
  import opened Blync
  import opened FFTHelper

  type byte = x: int | 0 <= x < 256

  // ---------------------------------------------------------------- capture

  /** The mono sample for one left/right byte pair: the 8-bit wrapped sum,
      shifted right by two. */
  function ChannelAverage(left: byte, right: byte): (avg: byte)
    ensures avg <= 63
    ensures 4 * avg <= (left + right) % 256 < 4 * avg + 4
  {
    ((left + right) % 256) / 4
  }

  /** The demand the capture callback makes of the recorded byte count `n`:
      every byte pair the loop reads lies inside the buffer. */
  predicate FrameFits(buffer: seq<byte>, n: int)
  {
    n <= 0 || n + n % 2 <= |buffer|
  }

  /** How many samples the callback enqueues for `n` recorded bytes. */
  function PairCount(n: int): (count: nat)
    ensures n > 0 && n % 2 == 0 ==> 2 * count == n
    ensures n > 0 && n % 2 == 1 ==> 2 * count == n + 1
    ensures n <= 0 ==> count == 0
  {
    if n <= 0 then 0 else (n + 1) / 2
  }

  /** The first `count` mono samples of `buffer`, in buffer order. */
  function MonoSamples(buffer: seq<byte>, count: nat): seq<byte>
    requires 2 * count <= |buffer|
  {
    if count == 0 then []
    else MonoSamples(buffer, count - 1) + [ChannelAverage(buffer[2 * count - 2], buffer[2 * count - 1])]
  }

  lemma {:induction false} MonoSamplesAt(buffer: seq<byte>, count: nat)
    requires 2 * count <= |buffer|
    ensures |MonoSamples(buffer, count)| == count
    ensures forall k :: 0 <= k < count ==>
      MonoSamples(buffer, count)[k] == ChannelAverage(buffer[2 * k], buffer[2 * k + 1])
    ensures forall k :: 0 <= k < count ==> MonoSamples(buffer, count)[k] <= 63
  {
    if count > 0 {
      MonoSamplesAt(buffer, count - 1);
    }
  }

  // ----------------------------------------------------------- band metrics

  /** The source loops over [lo, hi) and indexes the spectrum only when the
      range is non-empty. */
  predicate RangeFits(s: seq<real>, lo: int, hi: int)
  {
    hi <= lo || (0 <= lo && hi <= |s|)
  }

  /** The running peak over [lo, hi), starting from 0. */
  function MaxMagnitude(s: seq<real>, lo: int, hi: int): real
    requires RangeFits(s, lo, hi)
    decreases hi - lo
  {
    if hi <= lo then 0.0
    else
      var m := MaxMagnitude(s, lo, hi - 1);
      if s[hi - 1] > m then s[hi - 1] else m
  }

  /** The peak is at least 0 and at least every magnitude in the range, and is
      0 or one of those magnitudes. */
  lemma {:induction false} MaxMagnitudeIsPeak(s: seq<real>, lo: int, hi: int)
    requires RangeFits(s, lo, hi)
    ensures MaxMagnitude(s, lo, hi) >= 0.0
    ensures forall i :: lo <= i < hi ==> s[i] <= MaxMagnitude(s, lo, hi)
    ensures MaxMagnitude(s, lo, hi) == 0.0 ||
      exists i :: lo <= i < hi && s[i] == MaxMagnitude(s, lo, hi)
    decreases hi - lo
  {
    if hi > lo {
      MaxMagnitudeIsPeak(s, lo, hi - 1);
    }
  }

  /** The running sum of squared magnitudes over [lo, hi), in index order. */
  function SumSquares(s: seq<real>, lo: int, hi: int): real
    requires RangeFits(s, lo, hi)
    decreases hi - lo
  {
    if hi <= lo then 0.0 else SumSquares(s, lo, hi - 1) + s[hi - 1] * s[hi - 1]
  }

  predicate NonNegative(s: seq<real>)
  {
    forall i :: 0 <= i < |s| ==> s[i] >= 0.0
  }

  /** A band power is never negative, and it is zero when every magnitude in
      the band is zero (in particular when the band is empty). */
  lemma {:induction false} SumSquaresNonNegative(s: seq<real>, lo: int, hi: int)
    requires RangeFits(s, lo, hi) && NonNegative(s)
    ensures SumSquares(s, lo, hi) >= 0.0
    ensures (forall i :: lo <= i < hi ==> s[i] == 0.0) ==> SumSquares(s, lo, hi) == 0.0
    decreases hi - lo
  {
    if hi > lo {
      SumSquaresNonNegative(s, lo, hi - 1);
      var x := s[hi - 1];
      assert x * x >= 0.0;
    }
  }

  /** The band-power ratio: 0 when the lower band is silent, otherwise the
      upper power over the lower power, scaled down by 1.2. */
  function PsdRatio(lowerPsd: real, upperPsd: real): (ratio: real)
    requires lowerPsd >= 0.0 && upperPsd >= 0.0
    ensures ratio >= 0.0
    ensures lowerPsd == 0.0 ==> ratio == 0.0
    ensures lowerPsd > 0.0 ==> ratio * 1.2 * lowerPsd == upperPsd
  {
    if lowerPsd == 0.0 then 0.0
    else
      var q := upperPsd / lowerPsd;
      assert q * lowerPsd == upperPsd;
      DivMonotone(0.0, upperPsd, lowerPsd);
      q / 1.2
  }

  /** The ratio is zero exactly when one of the two bands is silent. */
  lemma PsdRatioZero(lowerPsd: real, upperPsd: real)
    requires lowerPsd >= 0.0 && upperPsd >= 0.0
    ensures (PsdRatio(lowerPsd, upperPsd) == 0.0) == (lowerPsd == 0.0 || upperPsd == 0.0)
  {
    if lowerPsd > 0.0 && upperPsd > 0.0 {
      var r := PsdRatio(lowerPsd, upperPsd);
      assert r * 1.2 * lowerPsd == upperPsd;
      assert r != 0.0 by {
        assert 0.0 * 1.2 * lowerPsd == 0.0;
      }
    }
  }

  // ---------------------------------------------- running mean and silence

  /** The smoothing state the analysis loop keeps across cycles. */
  datatype Smoothing = Smoothing(avgPsdRatio: real, ratioCount: int, numSilentFrames: int, silentStream: bool)

  const InitialSmoothing: Smoothing := Smoothing(0.0, 0, 0, false)

  /** Zero-ratio cycles needed before silence, 3 * 16384 / sampleRate. */
  function SilenceThreshold(sampleRate: real): real
    requires sampleRate > 0.0
  {
    (3 * FftLength) as real / sampleRate
  }

  /** Folds one more ratio into a mean of `count` ratios. */
  function FoldMean(mean: real, count: int, ratio: real): (m: real)
    requires count >= 0
    ensures m * (count + 1) as real == mean * count as real + ratio
  {
    (mean * count as real + ratio) / (count + 1) as real
  }

  /** The zero-ratio counter after this cycle's increment. */
  function CountedFrames(st: Smoothing, ratio: real): int
  {
    if ratio == 0.0 then st.numSilentFrames + 1 else st.numSilentFrames
  }

  /** Whether this cycle takes the silence-entry branch, which resets the
      mean: the stream is not leaving silence and the counter, after this
      cycle's increment, passes the threshold. */
  predicate ResetsMean(st: Smoothing, ratio: real, sampleRate: real)
    requires sampleRate > 0.0
  {
    !(st.silentStream && ratio > 0.0) && CountedFrames(st, ratio) as real > SilenceThreshold(sampleRate)
  }

  /** This cycle's update of the smoothing state. */
  function Smooth(st: Smoothing, ratio: real, sampleRate: real): (r: Smoothing)
    requires st.ratioCount >= 0 && sampleRate > 0.0
    // silence is left only on a cycle with a positive ratio, which also
    // resets the zero-ratio counter
    ensures st.silentStream && ratio > 0.0 ==> !r.silentStream && r.numSilentFrames == 0
    ensures st.silentStream && !r.silentStream ==> ratio > 0.0
    // silence is entered once the counter passes the threshold, and entering
    // it resets the mean
    ensures !st.silentStream && r.silentStream ==>
      r.numSilentFrames as real > SilenceThreshold(sampleRate) && r.avgPsdRatio == 0.0 && r.ratioCount == 0
    ensures !(st.silentStream && ratio > 0.0) && CountedFrames(st, ratio) as real > SilenceThreshold(sampleRate) ==>
      r.silentStream && r.avgPsdRatio == 0.0 && r.ratioCount == 0
    // otherwise the counter only counts zero ratios: it is never reset
    ensures !(st.silentStream && ratio > 0.0) ==> r.numSilentFrames == CountedFrames(st, ratio)
    // every cycle that does not take the silence-entry branch folds the
    // ratio into the mean, with one more ratio counted
    ensures !ResetsMean(st, ratio, sampleRate) ==>
      r.ratioCount == st.ratioCount + 1 &&
      r.avgPsdRatio * r.ratioCount as real == st.avgPsdRatio * st.ratioCount as real + ratio
    ensures ResetsMean(st, ratio, sampleRate) ==> r.avgPsdRatio == 0.0 && r.ratioCount == 0
    ensures r.ratioCount >= 0
  {
    var frames := CountedFrames(st, ratio);
    if st.silentStream && ratio > 0.0 then
      Smoothing(FoldMean(st.avgPsdRatio, st.ratioCount, ratio), st.ratioCount + 1, 0, false)
    else if frames as real > SilenceThreshold(sampleRate) then
      Smoothing(0.0, 0, frames, true)
    else
      Smoothing(FoldMean(st.avgPsdRatio, st.ratioCount, ratio), st.ratioCount + 1, frames, st.silentStream)
  }

  /** What holds of the smoothing state on every cycle. */
  predicate SmoothInv(st: Smoothing)
  {
    && st.ratioCount >= 0
    && st.avgPsdRatio >= 0.0
    && st.numSilentFrames >= 0
    && (st.silentStream ==> st.avgPsdRatio == 0.0)
  }

  lemma SmoothKeepsInv(st: Smoothing, ratio: real, sampleRate: real)
    requires SmoothInv(st) && ratio >= 0.0 && sampleRate > 0.0
    ensures SmoothInv(Smooth(st, ratio, sampleRate))
  {
    var r := Smooth(st, ratio, sampleRate);
    if r.ratioCount != 0 {
      assert st.avgPsdRatio * st.ratioCount as real >= 0.0;
      DivMonotone(0.0, st.avgPsdRatio * st.ratioCount as real + ratio, r.ratioCount as real);
    }
  }

  /** While the sample rate stays the same, a silent stream has a reset mean
      and a counter past the threshold. */
  predicate SilentReset(st: Smoothing, sampleRate: real)
    requires sampleRate > 0.0
  {
    st.silentStream ==>
      st.avgPsdRatio == 0.0 && st.ratioCount == 0 && st.numSilentFrames as real > SilenceThreshold(sampleRate)
  }

  lemma SmoothKeepsSilentReset(st: Smoothing, ratio: real, sampleRate: real)
    requires sampleRate > 0.0 && SmoothInv(st) && SilentReset(st, sampleRate) && ratio >= 0.0
    ensures SilentReset(Smooth(st, ratio, sampleRate), sampleRate)
  {
  }

  /** A silent stream whose sample rate drops far enough leaves the reset
      branch: the count grows while the stream stays silent. */
  lemma RateDropLetsCountGrowWhileSilent()
    ensures SilentReset(Smoothing(0.0, 0, 2, true), DefaultSampleRate)
    ensures Smooth(Smoothing(0.0, 0, 2, true), 0.0, 8000.0) == Smoothing(0.0, 1, 3, true)
  {
  }

  /** The smoothing state after the ratios of successive analysed cycles. */
  function SmoothAll(st: Smoothing, ratios: seq<real>, sampleRate: real): Smoothing
    requires st.ratioCount >= 0 && sampleRate > 0.0
    decreases |ratios|
  {
    if ratios == [] then st else SmoothAll(Smooth(st, ratios[0], sampleRate), ratios[1..], sampleRate)
  }

  /** Two zero-ratio cycles at 48 kHz make the stream silent. */
  lemma TwoZeroCyclesSilence()
    ensures SmoothAll(InitialSmoothing, [0.0, 0.0], DefaultSampleRate).silentStream
  {
    var s1 := Smooth(InitialSmoothing, 0.0, DefaultSampleRate);
    assert s1 == Smoothing(0.0, 1, 1, false);
    assert [0.0, 0.0][1..] == [0.0];
    assert SmoothAll(s1, [0.0], DefaultSampleRate) == SmoothAll(Smooth(s1, 0.0, DefaultSampleRate), [], DefaultSampleRate);
  }

  /** The counter counts zero-ratio cycles since silence was last left, not
      consecutive ones: two separated zero-ratio cycles also make it silent. */
  lemma SeparatedZeroCyclesSilence()
    ensures SmoothAll(InitialSmoothing, [0.0, 0.5, 0.0], DefaultSampleRate).silentStream
  {
    var s1 := Smooth(InitialSmoothing, 0.0, DefaultSampleRate);
    assert s1 == Smoothing(0.0, 1, 1, false);
    var s2 := Smooth(s1, 0.5, DefaultSampleRate);
    assert s2 == Smoothing(0.25, 2, 1, false);
    assert [0.0, 0.5, 0.0][1..] == [0.5, 0.0];
    assert [0.5, 0.0][1..] == [0.0];
    assert SmoothAll(s2, [0.0], DefaultSampleRate) == SmoothAll(Smooth(s2, 0.0, DefaultSampleRate), [], DefaultSampleRate);
  }

  function Sum(rs: seq<real>): real
  {
    if rs == [] then 0.0 else Sum(rs[..|rs| - 1]) + rs[|rs| - 1]
  }

  /** The arithmetic mean, 0 for no values. */
  function Mean(rs: seq<real>): real
  {
    if rs == [] then 0.0 else Sum(rs) / |rs| as real
  }

  /** The recurrence of FoldMean computes the arithmetic mean. */
  lemma FoldMeanIsMean(rs: seq<real>, ratio: real)
    ensures FoldMean(Mean(rs), |rs|, ratio) == Mean(rs + [ratio])
  {
    var rs' := rs + [ratio];
    assert rs'[..|rs'| - 1] == rs;
    assert Sum(rs') == Sum(rs) + ratio;
    assert Mean(rs) * |rs| as real == Sum(rs);
  }

  /** The ratios folded into the mean since the last reset. */
  function SinceReset(st: Smoothing, ratios: seq<real>, sampleRate: real, rs: seq<real>): seq<real>
    requires st.ratioCount >= 0 && sampleRate > 0.0
    decreases |ratios|
  {
    if ratios == [] then rs
    else
      var st' := Smooth(st, ratios[0], sampleRate);
      SinceReset(st', ratios[1..], sampleRate, if ResetsMean(st, ratios[0], sampleRate) then [] else rs + [ratios[0]])
  }

  /** The running mean is the arithmetic mean of the ratios since the last
      reset, and the count is their number. */
  lemma {:induction false} RunningMeanIsMean(st: Smoothing, ratios: seq<real>, sampleRate: real, rs: seq<real>)
    requires st.ratioCount == |rs| && st.avgPsdRatio == Mean(rs) && sampleRate > 0.0
    ensures SmoothAll(st, ratios, sampleRate).ratioCount == |SinceReset(st, ratios, sampleRate, rs)|
    ensures SmoothAll(st, ratios, sampleRate).avgPsdRatio == Mean(SinceReset(st, ratios, sampleRate, rs))
    decreases |ratios|
  {
    if ratios != [] {
      var st' := Smooth(st, ratios[0], sampleRate);
      if ResetsMean(st, ratios[0], sampleRate) {
        RunningMeanIsMean(st', ratios[1..], sampleRate, []);
      } else {
        FoldMeanIsMean(rs, ratios[0]);
        assert st'.avgPsdRatio == FoldMean(st.avgPsdRatio, st.ratioCount, ratios[0]);
        RunningMeanIsMean(st', ratios[1..], sampleRate, rs + [ratios[0]]);
      }
    }
  }

  // ------------------------------------------------------------- decisions

  /** The colour selection: Automatic, or a manually chosen colour. */
  datatype ColorMode = Automatic | Manual(color: LyncColor)

  /** ColorAutomated(). */
  function ColorAutomated(mode: ColorMode): bool
  {
    mode.Automatic?
  }

  /** The labels of the colour menu, in menu order. */
  const ColorOptions: seq<string> := ["Automatic", "White", "Yellow", "Green", "Cyan", "Blue", "Magenta", "Red"]

  /** SetCubeColor for the menu item at `index`: item i selects the colour
      whose enum value is i - 1, and item 0 (value -1) selects Automatic. */
  function MenuSelection(index: int): (mode: ColorMode)
    requires 0 <= index < |ColorOptions|
    ensures index == 0 <==> mode == Automatic
    ensures mode.Manual? ==> Code(mode.color) == index - 1 && Name(mode.color) == ColorOptions[index]
  {
    if index == 0 then Automatic else Manual(OfCode(index - 1).value)
  }

  /** Every colour can be chosen from exactly one menu item. */
  lemma MenuSelectsEveryColor(c: LyncColor)
    ensures MenuSelection(Code(c) + 1) == Manual(c)
    ensures forall i :: 0 <= i < |ColorOptions| && MenuSelection(i) == Manual(c) ==> i == Code(c) + 1
  {
    CodeRoundTrip(c);
  }

  /** The colour of this cycle. */
  function DecideColor(mode: ColorMode, silent: bool, mean: real): (c: LyncColor)
    ensures mode.Manual? ==> c == mode.color
    ensures mode == Automatic && silent ==> c == White
    ensures mode == Automatic && !silent ==> InBucket(mean * mean, c)
  {
    if !ColorAutomated(mode) then mode.color
    else if silent then White
    else FreqToColor(mean)
  }

  /** The device request of this cycle. */
  datatype Action = PulseIn(color: LyncColor) | SetTo(color: LyncColor)

  function Decide(mode: ColorMode, st: Smoothing, peakBassMag: real): (a: Action)
    ensures a.PulseIn? <==> peakBassMag > PulseThreshold
    ensures a.color == DecideColor(mode, st.silentStream, st.avgPsdRatio)
  {
    var c := DecideColor(mode, st.silentStream, st.avgPsdRatio);
    if ShouldPulse(peakBassMag) then PulseIn(c) else SetTo(c)
  }

  /** A manual colour replaces the automatic one but never changes whether
      the cycle pulses. */
  lemma ManualNeverSuppressesPulse(c: LyncColor, st: Smoothing, peakBassMag: real)
    ensures Decide(Manual(c), st, peakBassMag).color == c
    ensures Decide(Manual(c), st, peakBassMag).PulseIn? == Decide(Automatic, st, peakBassMag).PulseIn?
  {
  }

  /** The device after the request: a debounced pulse, or the Color setter. */
  function Actuate(d: DeviceState, a: Action, now: real): DeviceState
  {
    match a
    case PulseIn(c) => PulseStep(d, c, DefaultPulseLength, now)
    case SetTo(c) => SetColorStep(d, c, 0)
  }

  // ---------------------------------------------------------- one cycle

  /** The source indexes the spectrum up to the 4 kHz bin, so the rate must
      keep that bin inside the window. */
  predicate RateFits(rate: real)
  {
    rate > 0.0 && FreqToIndex(4000.0, rate) <= FftLength
  }

  datatype Bands = Bands(minBass: int, maxBass: int, bound2: int, bound3: int)

  /** The bin edges of the bass range and of the two bands. */
  function BandEdges(rate: real): (b: Bands)
    requires RateFits(rate)
    ensures 0 <= b.minBass <= b.maxBass <= b.bound2 <= b.bound3 <= FftLength
  {
    FreqToIndexMonotone(MinBassFreq as real, MaxBassFreq as real, rate);
    FreqToIndexMonotone(MaxBassFreq as real, 1000.0, rate);
    FreqToIndexMonotone(1000.0, 4000.0, rate);
    Bands(FreqToIndex(MinBassFreq as real, rate), FreqToIndex(MaxBassFreq as real, rate),
          FreqToIndex(1000.0, rate), FreqToIndex(4000.0, rate))
  }

  predicate SpectrumOk(spectrum: seq<real>)
  {
    |spectrum| == FftLength && NonNegative(spectrum)
  }

  datatype Metrics = Metrics(peakBassMag: real, lowerPsd: real, upperPsd: real)

  /** The bass peak and the two band powers of a spectrum. */
  function BandMetrics(spectrum: seq<real>, rate: real): (m: Metrics)
    requires SpectrumOk(spectrum) && RateFits(rate)
    ensures m.peakBassMag >= 0.0 && m.lowerPsd >= 0.0 && m.upperPsd >= 0.0
  {
    var b := BandEdges(rate);
    MaxMagnitudeIsPeak(spectrum, b.minBass, b.maxBass);
    SumSquaresNonNegative(spectrum, b.maxBass, b.bound2);
    SumSquaresNonNegative(spectrum, b.bound2, b.bound3);
    Metrics(MaxMagnitude(spectrum, b.minBass, b.maxBass),
            SumSquares(spectrum, b.maxBass, b.bound2),
            SumSquares(spectrum, b.bound2, b.bound3))
  }

  /** The state of the program that one cycle reads and writes, besides the
      smoothing state: the sample buffer, the recorded endpoint, the rate the
      silence threshold uses, the rate the bin conversions use, the colour
      mode, and the light. */
  datatype Core = Core(data: seq<byte>, endpointId: string, sampleRate: real, fftRate: real,
                       mode: ColorMode, device: DeviceState)

  predicate CoreOk(s: Core)
  {
    s.sampleRate > 0.0 && RateFits(s.fftRate)
  }

  /** What one poll of the loop observes: the default endpoint, the rate a
      fresh capture would report, the magnitude spectrum of the window, and
      the clock. */
  datatype CycleInput = CycleInput(endpointId: string, captureRate: real, spectrum: seq<real>, now: real)

  predicate InputOk(inp: CycleInput)
  {
    RateFits(inp.captureRate) && SpectrumOk(inp.spectrum)
  }

  /** SetLoopbackSource: both rates become the capture's. */
  function Resubscribe(s: Core, rate: real): (r: Core)
  {
    s.(sampleRate := rate, fftRate := rate)
  }

  /** One iteration of the analysis loop. */
  function CycleStep(s: Core, st: Smoothing, inp: CycleInput): (r: (Core, Smoothing))
    requires CoreOk(s) && InputOk(inp) && st.ratioCount >= 0
    ensures CoreOk(r.0) && r.1.ratioCount >= 0 && r.0.mode == s.mode
  {
    if inp.endpointId != s.endpointId then
      (Resubscribe(s.(endpointId := inp.endpointId), inp.captureRate), st)
    else if |s.data| < FftLength then
      (s, st)
    else
      var m := BandMetrics(inp.spectrum, s.fftRate);
      var ratio := PsdRatio(m.lowerPsd, m.upperPsd);
      var st' := Smooth(st, ratio, s.sampleRate);
      var a := Decide(s.mode, st', m.peakBassMag);
      (s.(data := s.data[FftLength..], device := Actuate(s.device, a, inp.now)), st')
  }

  /** An endpoint change records the new endpoint and re-subscribes, and
      skips the cycle: the buffer (which is not cleared), the smoothing state
      and the light stay as they were. */
  lemma EndpointChangeSkips(s: Core, st: Smoothing, inp: CycleInput)
    requires CoreOk(s) && InputOk(inp) && st.ratioCount >= 0
    requires inp.endpointId != s.endpointId
    ensures CycleStep(s, st, inp).0.endpointId == inp.endpointId
    ensures CycleStep(s, st, inp).0.data == s.data
    ensures CycleStep(s, st, inp).0.sampleRate == inp.captureRate == CycleStep(s, st, inp).0.fftRate
    ensures CycleStep(s, st, inp).0.device == s.device
    ensures CycleStep(s, st, inp).1 == st
  {
  }

  /** With fewer than a window of bytes buffered, nothing changes. */
  lemma UnderfullSkips(s: Core, st: Smoothing, inp: CycleInput)
    requires CoreOk(s) && InputOk(inp) && st.ratioCount >= 0
    requires inp.endpointId == s.endpointId && |s.data| < FftLength
    ensures CycleStep(s, st, inp) == (s, st)
  {
  }

  /** An analysed cycle removes exactly the oldest window of bytes and keeps
      the rest in order. */
  lemma CycleConsumesWindow(s: Core, st: Smoothing, inp: CycleInput)
    requires CoreOk(s) && InputOk(inp) && st.ratioCount >= 0
    requires inp.endpointId == s.endpointId && |s.data| >= FftLength
    ensures s.data == s.data[..FftLength] + CycleStep(s, st, inp).0.data
    ensures |CycleStep(s, st, inp).0.data| == |s.data| - FftLength
  {
  }

  /** An analysed cycle issues a pulse exactly when the bass peak passes the
      beat threshold, in either colour mode, and uses the decided colour. */
  lemma CyclePulsesOnBeat(s: Core, st: Smoothing, inp: CycleInput)
    requires CoreOk(s) && InputOk(inp) && st.ratioCount >= 0
    requires inp.endpointId == s.endpointId && |s.data| >= FftLength
    ensures var m := BandMetrics(inp.spectrum, s.fftRate);
            var r := CycleStep(s, st, inp);
            var c := DecideColor(s.mode, r.1.silentStream, r.1.avgPsdRatio);
            r.0.device == if m.peakBassMag > PulseThreshold then PulseStep(s.device, c, DefaultPulseLength, inp.now)
                          else SetColorStep(s.device, c, 0)
  {
  }

  lemma CycleKeepsInv(s: Core, st: Smoothing, inp: CycleInput)
    requires CoreOk(s) && InputOk(inp) && SmoothInv(st)
    ensures SmoothInv(CycleStep(s, st, inp).1)
  {
    if inp.endpointId == s.endpointId && |s.data| >= FftLength {
      var m := BandMetrics(inp.spectrum, s.fftRate);
      SmoothKeepsInv(st, PsdRatio(m.lowerPsd, m.upperPsd), s.sampleRate);
    }
  }

  // ------------------------------------------------------ the whole loop

  /** What happens between polls: a captured chunk arrives, or the loop polls. */
  datatype Event = Frame(buffer: seq<byte>, n: int) | Poll(input: CycleInput)

  predicate EventOk(e: Event)
  {
    match e
    case Frame(buffer, n) => FrameFits(buffer, n)
    case Poll(inp) => InputOk(inp)
  }

  /** HandleFrame: the chunk's mono samples join the end of the buffer. */
  function Enqueue(s: Core, buffer: seq<byte>, n: int): (r: Core)
    requires FrameFits(buffer, n)
    ensures |r.data| == |s.data| + PairCount(n) && r.data[..|s.data|] == s.data
    ensures forall k :: 0 <= k < PairCount(n) ==>
      r.data[|s.data| + k] == ChannelAverage(buffer[2 * k], buffer[2 * k + 1])
    ensures r.(data := s.data) == s
  {
    MonoSamplesAt(buffer, PairCount(n));
    assert (s.data + MonoSamples(buffer, PairCount(n)))[..|s.data|] == s.data;
    s.(data := s.data + MonoSamples(buffer, PairCount(n)))
  }

  predicate AllOk(events: seq<Event>)
  {
    forall k :: 0 <= k < |events| ==> EventOk(events[k])
  }

  lemma AllOkSuffix(events: seq<Event>, i: int)
    requires AllOk(events) && 0 <= i <= |events|
    ensures AllOk(events[i..])
  {
    forall k | 0 <= k < |events[i..]| ensures EventOk(events[i..][k]) {
      assert events[i..][k] == events[i + k];
    }
  }

  /** One event: a chunk is enqueued, or the loop runs one cycle. */
  function EventStep(s: Core, st: Smoothing, e: Event): (r: (Core, Smoothing))
    requires CoreOk(s) && st.ratioCount >= 0 && EventOk(e)
    ensures CoreOk(r.0) && r.1.ratioCount >= 0 && r.0.mode == s.mode
  {
    match e
    case Frame(buffer, n) => (Enqueue(s, buffer, n), st)
    case Poll(inp) => CycleStep(s, st, inp)
  }

  /** The state after a sequence of events, one at a time. */
  function Run(s: Core, st: Smoothing, events: seq<Event>): (r: (Core, Smoothing))
    requires CoreOk(s) && st.ratioCount >= 0 && AllOk(events)
    ensures CoreOk(r.0) && r.1.ratioCount >= 0
    decreases |events|
  {
    if events == [] then (s, st)
    else
      AllOkSuffix(events, 1);
      var next := EventStep(s, st, events[0]);
      Run(next.0, next.1, events[1..])
  }

  /** Running the events from position `i` is the first of them followed by
      the rest. */
  lemma RunUnfold(s: Core, st: Smoothing, events: seq<Event>, i: int)
    requires CoreOk(s) && st.ratioCount >= 0 && 0 <= i < |events| && AllOk(events[i..])
    ensures EventOk(events[i]) && AllOk(events[i + 1..])
    ensures var next := EventStep(s, st, events[i]);
            Run(s, st, events[i..]) == Run(next.0, next.1, events[i + 1..])
  {
    assert events[i..][0] == events[i];
    assert events[i..][1..] == events[i + 1..];
    AllOkSuffix(events[i..], 1);
  }

  /** The smoothing invariant holds after any sequence of events. */
  lemma {:induction false} RunKeepsInv(s: Core, st: Smoothing, events: seq<Event>)
    requires CoreOk(s) && SmoothInv(st) && AllOk(events)
    ensures SmoothInv(Run(s, st, events).1)
    decreases |events|
  {
    if events != [] {
      AllOkSuffix(events, 1);
      if events[0].Poll? {
        CycleKeepsInv(s, st, events[0].input);
      }
      var next := EventStep(s, st, events[0]);
      RunKeepsInv(next.0, next.1, events[1..]);
    }
  }

  /** The colour mode is never changed by the loop. */
  lemma {:induction false} RunKeepsMode(s: Core, st: Smoothing, events: seq<Event>)
    requires CoreOk(s) && st.ratioCount >= 0 && AllOk(events)
    ensures Run(s, st, events).0.mode == s.mode
    decreases |events|
  {
    if events != [] {
      AllOkSuffix(events, 1);
      var next := EventStep(s, st, events[0]);
      RunKeepsMode(next.0, next.1, events[1..]);
    }
  }
}
