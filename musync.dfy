/**
 * The application object of Musync/Musync.cs: the sample buffer the capture
 * callback fills, the analysis loop that drains it one window at a time and
 * drives the light, and the tray actions that change the colour mode or stop
 * the visualizer. Each method is proved to implement the transition functions
 * of module Analysis on the state View() projects.
 *
 * The capture callback and the analysis loop run on different threads in the
 * source; here they are interleaved as a sequence of events, each one atomic.
 */
module Musync {
  import opened Blync
  import opened FFTHelper
  import opened Analysis

  /** The bass-peak loop of the analysis cycle over bins [lo, hi). */
  method PeakBassMagnitude(spectrum: seq<real>, lo: int, hi: int) returns (peak: real)
    requires RangeFits(spectrum, lo, hi)
    ensures peak == MaxMagnitude(spectrum, lo, hi)
    ensures peak >= 0.0
    ensures forall i :: lo <= i < hi ==> spectrum[i] <= peak
    ensures peak == 0.0 || exists i :: lo <= i < hi && spectrum[i] == peak
  {
    peak := 0.0;
    var i := lo;
    while i < hi
      invariant lo <= i && (i <= hi || i == lo)
      invariant peak == MaxMagnitude(spectrum, lo, i)
      decreases hi - i
    {
      var mag := spectrum[i];
      if mag > peak {
        peak := mag;
      }
      i := i + 1;
    }
    MaxMagnitudeIsPeak(spectrum, lo, hi);
  }

  /** One band-power loop of the analysis cycle over bins [lo, hi). */
  method BandPower(spectrum: seq<real>, lo: int, hi: int) returns (psd: real)
    requires RangeFits(spectrum, lo, hi) && NonNegative(spectrum)
    ensures psd == SumSquares(spectrum, lo, hi)
    ensures psd >= 0.0
  {
    psd := 0.0;
    var i := lo;
    while i < hi
      invariant lo <= i && (i <= hi || i == lo)
      invariant psd == SumSquares(spectrum, lo, i)
      decreases hi - i
    {
      var mag := spectrum[i];
      psd := psd + mag * mag;
      i := i + 1;
    }
    SumSquaresNonNegative(spectrum, lo, hi);
  }

  /** The bin bounds and the three loops over the spectrum of one cycle. */
  method Analyse(spectrum: seq<real>, rate: real) returns (m: Metrics)
    requires SpectrumOk(spectrum) && RateFits(rate)
    ensures m == BandMetrics(spectrum, rate)
  {
    var minBassIndex := FreqToIndex(MinBassFreq as real, rate);
    var maxBassIndex := FreqToIndex(MaxBassFreq as real, rate);
    ghost var b := BandEdges(rate);
    var peakBassMag := PeakBassMagnitude(spectrum, minBassIndex, maxBassIndex);

    var bound1 := FreqToIndex(MaxBassFreq as real, rate);
    var bound2 := FreqToIndex(1000.0, rate);
    var bound3 := FreqToIndex(4000.0, rate);
    var lowerPsd := BandPower(spectrum, bound1, bound2);
    var upperPsd := BandPower(spectrum, bound2, bound3);
    m := Metrics(peakBassMag, lowerPsd, upperPsd);
  }

  /** The band-power ratio of one cycle. */
  method Ratio(lowerPsd: real, upperPsd: real) returns (ratio: real)
    requires lowerPsd >= 0.0 && upperPsd >= 0.0
    ensures ratio == PsdRatio(lowerPsd, upperPsd)
  {
    if lowerPsd == 0.0 {
      ratio := 0.0;
    } else {
      ratio := upperPsd / lowerPsd / 1.2;
    }
  }

  /** The silence bookkeeping and running mean of one cycle, on the loop's
      locals. */
  method UpdateSmoothing(st: Smoothing, ratio: real, sampleRate: real) returns (r: Smoothing)
    requires st.ratioCount >= 0 && sampleRate > 0.0
    ensures r == Smooth(st, ratio, sampleRate)
  {
    var avgPsdRatio, ratioCount := st.avgPsdRatio, st.ratioCount;
    var numSilentFrames, silentStream := st.numSilentFrames, st.silentStream;
    if ratio == 0.0 {
      numSilentFrames := numSilentFrames + 1;
    }
    if silentStream && ratio > 0.0 {
      silentStream := false;
      avgPsdRatio := (avgPsdRatio * ratioCount as real + ratio) / (ratioCount + 1) as real;
      ratioCount := ratioCount + 1;
      numSilentFrames := 0;
    } else if numSilentFrames as real > (3 * FftLength) as real / sampleRate {
      silentStream := true;
      avgPsdRatio := 0.0;
      ratioCount := 0;
    } else {
      avgPsdRatio := (avgPsdRatio * ratioCount as real + ratio) / (ratioCount + 1) as real;
      ratioCount := ratioCount + 1;
    }
    r := Smoothing(avgPsdRatio, ratioCount, numSilentFrames, silentStream);
  }

  class Musync {
    /** The mono sample queue, oldest first. */
    var data: seq<byte>
    /** The endpoint the capture was subscribed to. */
    var audioEndpointId: string
    /** The capture's rate, which the silence threshold uses. */
    var sampleRate: real
    var currentColor: ColorMode
    var blyncOn: bool
    const device: BlyncHelper
    /** The shared conversion settings of FFTHelper. */
    const fft: FftHelper

    /** The state the analysis functions describe. */
    function View(): Core
      reads this, device, fft
    {
      Core(data, audioEndpointId, sampleRate, fft.sampleRate, currentColor, device.State())
    }

    /** InitMusync: the default endpoint is recorded, the buffer is empty, the
        light shows White (the device starts with the clock at `now`), the
        mode is Automatic and the visualizer is on. */
    constructor (endpointId: string, devices: int, now: real, fft: FftHelper)
      ensures this.fft == fft && fresh(device)
      ensures data == [] && audioEndpointId == endpointId && sampleRate == 0.0
      ensures currentColor == Automatic && blyncOn
      ensures device.numDevices == devices
      ensures device.State() == SetColorStep(DeviceState(White, now, []), White, 0)
    {
      data := [];
      audioEndpointId := endpointId;
      sampleRate := 0.0;
      this.fft := fft;
      var d := new BlyncHelper(devices, now);
      d.SetColor(White, 0);
      device := d;
      new;
      currentColor := Automatic;
      blyncOn := true;
    }

    /** SetLoopbackSource: a fresh capture subscription reporting `rate`, which
        both the loop and the bin conversions then use. */
    method SetLoopbackSource(rate: real)
      modifies this, fft
      ensures View() == Resubscribe(old(View()), rate)
      ensures blyncOn == old(blyncOn)
    {
      sampleRate := rate;
      fft.SetSampleRate(rate);
    }

    /** HandleFrame: one mono sample per byte pair of the first `n` bytes,
        appended in order. */
    method HandleFrame(buffer: seq<byte>, n: int)
      requires FrameFits(buffer, n)
      modifies this
      ensures View() == Enqueue(old(View()), buffer, n)
      ensures blyncOn == old(blyncOn)
    {
      var i := 0;
      while i < n
        invariant 0 <= i <= 2 * PairCount(n) && i % 2 == 0
        invariant data == old(data) + MonoSamples(buffer, i / 2)
        invariant View() == old(View()).(data := data) && blyncOn == old(blyncOn)
      {
        var avg := ChannelAverage(buffer[i], buffer[i + 1]);
        data := data + [avg];
        i := i + 2;
      }
    }

    /** The dequeue loop of the analysis cycle: the oldest window leaves the
        buffer in order. */
    method DequeueWindow() returns (window: seq<byte>)
      requires |data| >= FftLength
      modifies this
      ensures window == old(data)[..FftLength] && data == old(data)[FftLength..]
      ensures View() == old(View()).(data := data) && blyncOn == old(blyncOn)
    {
      window := [];
      var i := 0;
      while i < FftLength
        invariant 0 <= i <= FftLength
        invariant window == old(data)[..i] && data == old(data)[i..]
        invariant View() == old(View()).(data := data) && blyncOn == old(blyncOn)
      {
        window := window + [data[0]];
        data := data[1..];
        i := i + 1;
      }
    }

    /** One iteration of the analysis loop, given the smoothing state the loop
        keeps in locals; `inp.spectrum` stands for the FFT of the dequeued
        window. */
    method Cycle(st: Smoothing, inp: CycleInput) returns (st': Smoothing)
      requires CoreOk(View()) && InputOk(inp) && st.ratioCount >= 0
      modifies this, fft, device
      ensures (View(), st') == CycleStep(old(View()), st, inp)
      ensures blyncOn == old(blyncOn)
    {
      var id := inp.endpointId;
      if id != audioEndpointId {
        audioEndpointId := id;
        SetLoopbackSource(inp.captureRate);
        return st;
      }
      if |data| < FftLength {
        return st;
      }
      var window := DequeueWindow();
      var m := Analyse(inp.spectrum, fft.sampleRate);
      var ratio := Ratio(m.lowerPsd, m.upperPsd);
      st' := UpdateSmoothing(st, ratio, sampleRate);
      Drive(st', m.peakBassMag, inp.now);
    }

    /** The colour choice and the light request at the end of a cycle. */
    method Drive(st: Smoothing, peakBassMag: real, now: real)
      modifies device
      ensures device.State() == Actuate(old(device.State()), Decide(currentColor, st, peakBassMag), now)
    {
      var newColor: LyncColor;
      if !ColorAutomated(currentColor) {
        newColor := currentColor.color;
      } else if st.silentStream {
        newColor := White;
      } else {
        newColor := FreqToColor(st.avgPsdRatio);
      }

      var pulseBeat := ShouldPulse(peakBassMag);
      if pulseBeat {
        device.Pulse(newColor, DefaultPulseLength, now);
      } else {
        device.SetColor(newColor, 0);
      }
    }

    /** HandleFft: a fresh subscription at `captureRate` and a fresh smoothing
        state, then, while the visualizer is on, the events in order. */
    method HandleFft(captureRate: real, events: seq<Event>) returns (st: Smoothing)
      requires RateFits(captureRate) && AllOk(events)
      modifies this, fft, device
      ensures blyncOn == old(blyncOn)
      ensures old(blyncOn) ==>
        (View(), st) == Run(Resubscribe(old(View()), captureRate), InitialSmoothing, events)
      ensures !old(blyncOn) ==> View() == Resubscribe(old(View()), captureRate) && st == InitialSmoothing
    {
      st := InitialSmoothing;
      SetLoopbackSource(captureRate);
      ghost var start := View();
      var i := 0;
      while blyncOn && i < |events|
        invariant 0 <= i <= |events|
        invariant CoreOk(View()) && st.ratioCount >= 0 && AllOk(events[i..])
        invariant blyncOn == old(blyncOn)
        invariant Run(View(), st, events[i..]) == Run(start, InitialSmoothing, events)
        invariant !blyncOn ==> View() == start && st == InitialSmoothing
        decreases |events| - i
      {
        RunUnfold(View(), st, events, i);
        st := HandleEvent(st, events[i]);
        i := i + 1;
      }
    }

    /** What one event does: the capture callback runs, or the loop polls. */
    method HandleEvent(st: Smoothing, e: Event) returns (st': Smoothing)
      requires CoreOk(View()) && st.ratioCount >= 0 && EventOk(e)
      modifies this, fft, device
      ensures (View(), st') == EventStep(old(View()), st, e)
      ensures blyncOn == old(blyncOn)
    {
      match e
      case Frame(buffer, n) =>
        HandleFrame(buffer, n);
        st' := st;
      case Poll(inp) =>
        st' := Cycle(st, inp);
    }

    /** SetCubeColor for colour-menu item `index`. */
    method SetCubeColor(index: int)
      requires 0 <= index < |ColorOptions|
      modifies this
      ensures View() == old(View()).(mode := MenuSelection(index)) && blyncOn == old(blyncOn)
    {
      currentColor := MenuSelection(index);
    }

    /** ToggleVisualizer: switching on keeps the state (the loop is started by
        HandleFft); switching off empties the buffer and turns the light off. */
    method ToggleVisualizer()
      modifies this, device
      ensures blyncOn == !old(blyncOn)
      ensures blyncOn ==> View() == old(View())
      ensures !blyncOn ==>
        View() == old(View()).(data := [], device := TurnOffStep(old(device.State()), device.numDevices))
    {
      blyncOn := !blyncOn;
      if !blyncOn {
        data := [];
        device.TurnOff();
      }
    }

    /** DisposeMusync: the visualizer is off, the buffer empty and the light
        turned off (twice when the visualizer was on). */
    method DisposeMusync()
      modifies this, device
      ensures !blyncOn && data == []
      ensures var d := if old(blyncOn) then TurnOffStep(old(device.State()), device.numDevices)
                       else old(device.State());
              View() == old(View()).(data := [], device := TurnOffStep(d, device.numDevices))
    {
      if blyncOn {
        ToggleVisualizer();
      }
      device.TurnOff();
      data := [];
    }
  }
}
