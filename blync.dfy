/**
 * The light-device wrapper of Musync/BlyncHelper.cs: the colour palette, the
 * commands the wrapper sends to the Blynclight controller, and the wrapper
 * itself, which remembers the colour it last set and rate-limits pulses.
 *
 * The controller is modelled as a log of the commands it has received; the
 * wall clock is a `now` parameter in milliseconds (a time-of-day reading).
 */
module Blync {
  import opened Wrappers

  /** The palette, in declaration order (White is 0, Red is 6). */
  datatype LyncColor = White | Yellow | Green | Cyan | Blue | Magenta | Red

  const NumColors: int := 7

  /** The enum's underlying integer value. */
  function Code(c: LyncColor): (k: int)
    ensures 0 <= k < NumColors
  {
    match c
    case White => 0
    case Yellow => 1
    case Green => 2
    case Cyan => 3
    case Blue => 4
    case Magenta => 5
    case Red => 6
  }

  /** The declared colour with underlying value `k`, if there is one. */
  function OfCode(k: int): (r: Option<LyncColor>)
    ensures r.Some? <==> 0 <= k < NumColors
    ensures r.Some? ==> Code(r.value) == k
  {
    if k == 0 then Some(White)
    else if k == 1 then Some(Yellow)
    else if k == 2 then Some(Green)
    else if k == 3 then Some(Cyan)
    else if k == 4 then Some(Blue)
    else if k == 5 then Some(Magenta)
    else if k == 6 then Some(Red)
    else None
  }

  lemma CodeRoundTrip(c: LyncColor)
    ensures OfCode(Code(c)) == Some(c)
  {
  }

  /** The enum member's name, as the colour menu spells it. */
  function Name(c: LyncColor): string
  {
    match c
    case White => "White"
    case Yellow => "Yellow"
    case Green => "Green"
    case Cyan => "Cyan"
    case Blue => "Blue"
    case Magenta => "Magenta"
    case Red => "Red"
  }

  /** One call into the Blynclight controller, with the device index it targets. */
  datatype Command =
    | ResetLight(index: int)
    | TurnOnWhiteLight(index: int)
    | TurnOnYellowLight(index: int)
    | TurnOnGreenLight(index: int)
    | TurnOnCyanLight(index: int)
    | TurnOnBlueLight(index: int)
    | TurnOnMagentaLight(index: int)
    | TurnOnRedLight(index: int)

  /** The colour a command lights, or None for ResetLight (light off). */
  function LitColor(cmd: Command): Option<LyncColor>
  {
    match cmd
    case ResetLight(_) => None
    case TurnOnWhiteLight(_) => Some(White)
    case TurnOnYellowLight(_) => Some(Yellow)
    case TurnOnGreenLight(_) => Some(Green)
    case TurnOnCyanLight(_) => Some(Cyan)
    case TurnOnBlueLight(_) => Some(Blue)
    case TurnOnMagentaLight(_) => Some(Magenta)
    case TurnOnRedLight(_) => Some(Red)
  }

  /** The controller call that the colour switch of SetColor makes for `c`. */
  function ColorCommand(c: LyncColor, index: int): (cmd: Command)
    ensures cmd.index == index
    ensures LitColor(cmd) == Some(c)
  {
    match c
    case White => TurnOnWhiteLight(index)
    case Red => TurnOnRedLight(index)
    case Yellow => TurnOnYellowLight(index)
    case Green => TurnOnGreenLight(index)
    case Cyan => TurnOnCyanLight(index)
    case Blue => TurnOnBlueLight(index)
    case Magenta => TurnOnMagentaLight(index)
  }

  /** Minimum spacing of two accepted pulses, in milliseconds. */
  const MinPulseDt: real := 300.0

  /** The default pulse length, in milliseconds. */
  const DefaultPulseLength: int := 25

  /** The observable state of a wrapper: its colour field, the time of the last
      accepted pulse, and every command it has sent to the controller. */
  datatype DeviceState = DeviceState(color: LyncColor, lastPulseTime: real, log: seq<Command>)

  /** The debounce test of Pulse as written: the pulse goes ahead unless fewer
      than MinPulseDt milliseconds separate the two clock readings. */
  predicate PulseDue(last: real, now: real)
  {
    !(now - last < MinPulseDt)
  }

  /** Milliseconds in a day: the range of the time-of-day clock readings. */
  const DayMs: real := 86400000.0

  predicate IsTimeOfDay(t: real)
  {
    0.0 <= t < DayMs
  }

  /** The milliseconds from the reading `last` to the reading `now` on a clock
      that wraps at midnight. */
  function Elapsed(last: real, now: real): (e: real)
    ensures IsTimeOfDay(last) && IsTimeOfDay(now) ==> 0.0 <= e < DayMs
    ensures now >= last ==> e == now - last
  {
    if now >= last then now - last else now - last + DayMs
  }

  /** The debounce test with the day wrap taken into account. */
  predicate PulseDueWrapped(last: real, now: real)
  {
    Elapsed(last, now) >= MinPulseDt
  }

  /** SetColor(c, index): one command for device `index`; the colour field
      becomes `c` whatever the index. */
  function SetColorStep(d: DeviceState, c: LyncColor, index: int): (r: DeviceState)
    ensures r.color == c && r.lastPulseTime == d.lastPulseTime
    ensures |r.log| == |d.log| + 1 && r.log[..|d.log|] == d.log
    ensures LitColor(r.log[|d.log|]) == Some(c) && r.log[|d.log|].index == index
  {
    DeviceState(c, d.lastPulseTime, d.log + [ColorCommand(c, index)])
  }

  /** Pulse(c, length) at time `now`. */
  function PulseStep(d: DeviceState, c: LyncColor, length: int, now: real): (r: DeviceState)
    ensures r != d <==> length >= 0 && now - d.lastPulseTime >= MinPulseDt
    ensures r != d ==> r.color == c && r.lastPulseTime == now
    ensures r != d ==> r.log == d.log + [ResetLight(0), ColorCommand(c, 0)]
  {
    if length < 0 then d
    else if !PulseDue(d.lastPulseTime, now) then d
    else
      var reset := DeviceState(d.color, now, d.log + [ResetLight(0)]);
      SetColorStep(reset, c, 0)
  }

  /** Pulse(c, length) at time `now` with the debounce measured across
      midnight. */
  function PulseStepWrapped(d: DeviceState, c: LyncColor, length: int, now: real): (r: DeviceState)
    ensures r != d <==> length >= 0 && Elapsed(d.lastPulseTime, now) >= MinPulseDt
    ensures r != d ==> r.color == c && r.lastPulseTime == now
    ensures r != d ==> r.log == d.log + [ResetLight(0), ColorCommand(c, 0)]
  {
    if length < 0 then d
    else if !PulseDueWrapped(d.lastPulseTime, now) then d
    else
      var reset := DeviceState(d.color, now, d.log + [ResetLight(0)]);
      SetColorStep(reset, c, 0)
  }

  /** The colour commands SetColorAll sends to devices 0 .. n-1. */
  function ColorAllCommands(c: LyncColor, n: int): seq<Command>
    decreases n
  {
    if n <= 0 then [] else ColorAllCommands(c, n - 1) + [ColorCommand(c, n - 1)]
  }

  /** The ResetLight commands TurnOff sends to devices 0 .. n-1. */
  function ResetAllCommands(n: int): seq<Command>
    decreases n
  {
    if n <= 0 then [] else ResetAllCommands(n - 1) + [ResetLight(n - 1)]
  }

  lemma {:induction false} ColorAllCommandsAt(c: LyncColor, n: int)
    ensures |ColorAllCommands(c, n)| == if n <= 0 then 0 else n
    ensures forall k :: 0 <= k < |ColorAllCommands(c, n)| ==>
      LitColor(ColorAllCommands(c, n)[k]) == Some(c) && ColorAllCommands(c, n)[k].index == k
    decreases n
  {
    if n > 0 {
      ColorAllCommandsAt(c, n - 1);
    }
  }

  lemma {:induction false} ResetAllCommandsAt(n: int)
    ensures |ResetAllCommands(n)| == if n <= 0 then 0 else n
    ensures forall k :: 0 <= k < |ResetAllCommands(n)| ==> ResetAllCommands(n)[k] == ResetLight(k)
    decreases n
  {
    if n > 0 {
      ResetAllCommandsAt(n - 1);
    }
  }

  /** SetColorAll over `n` devices: the colour field changes only when the
      loop runs at least once. */
  function SetColorAllStep(d: DeviceState, c: LyncColor, n: int): (r: DeviceState)
    ensures r.lastPulseTime == d.lastPulseTime
    ensures r.color == if n <= 0 then d.color else c
    ensures r.log == d.log + ColorAllCommands(c, n)
  {
    if n <= 0 then d else DeviceState(c, d.lastPulseTime, d.log + ColorAllCommands(c, n))
  }

  /** TurnOff over `n` devices. */
  function TurnOffStep(d: DeviceState, n: int): (r: DeviceState)
    ensures r.color == d.color && r.lastPulseTime == d.lastPulseTime
    ensures r.log == d.log + ResetAllCommands(n)
  {
    DeviceState(d.color, d.lastPulseTime, d.log + ResetAllCommands(n))
  }

  /** The clock readings, among successive beat requests at times `nows`, for
      which a pulse is actually issued, starting from a last pulse at `last`. */
  function AcceptedPulses(last: real, nows: seq<real>): seq<real>
    decreases |nows|
  {
    if nows == [] then []
    else if PulseDue(last, nows[0]) then [nows[0]] + AcceptedPulses(nows[0], nows[1..])
    else AcceptedPulses(last, nows[1..])
  }

  /** The wrapper after Pulse(c) is requested at each time of `nows` in turn. */
  function PulseTrace(d: DeviceState, c: LyncColor, nows: seq<real>): DeviceState
    decreases |nows|
  {
    if nows == [] then d else PulseTrace(PulseStep(d, c, DefaultPulseLength, nows[0]), c, nows[1..])
  }

  /** Every accepted pulse is at least MinPulseDt after the one before it, and
      the first is at least MinPulseDt after the starting `last`. */
  lemma {:induction false} AcceptedPulsesSpaced(last: real, nows: seq<real>)
    ensures |AcceptedPulses(last, nows)| <= |nows|
    ensures |AcceptedPulses(last, nows)| > 0 ==> AcceptedPulses(last, nows)[0] - last >= MinPulseDt
    ensures forall j :: 0 <= j < |AcceptedPulses(last, nows)| - 1 ==>
      AcceptedPulses(last, nows)[j + 1] - AcceptedPulses(last, nows)[j] >= MinPulseDt
    decreases |nows|
  {
    if nows != [] {
      if PulseDue(last, nows[0]) {
        AcceptedPulsesSpaced(nows[0], nows[1..]);
      } else {
        AcceptedPulsesSpaced(last, nows[1..]);
      }
    }
  }

  /** The wrapper issues two commands per accepted pulse and nothing for a
      dropped one, and its last-pulse time is that of the last accepted pulse. */
  lemma {:induction false} PulseTraceMatchesAccepted(d: DeviceState, c: LyncColor, nows: seq<real>)
    ensures |PulseTrace(d, c, nows).log| == |d.log| + 2 * |AcceptedPulses(d.lastPulseTime, nows)|
    ensures PulseTrace(d, c, nows).lastPulseTime ==
      if AcceptedPulses(d.lastPulseTime, nows) == [] then d.lastPulseTime
      else AcceptedPulses(d.lastPulseTime, nows)[|AcceptedPulses(d.lastPulseTime, nows)| - 1]
    decreases |nows|
  {
    if nows != [] {
      var d' := PulseStep(d, c, DefaultPulseLength, nows[0]);
      PulseTraceMatchesAccepted(d', c, nows[1..]);
    }
  }

  /** Two beats less than MinPulseDt apart give one pulse; the second is dropped. */
  lemma CloseBeatsPulseOnce(last: real, t: real, gap: real)
    requires t - last >= MinPulseDt && 0.0 <= gap < MinPulseDt
    ensures AcceptedPulses(last, [t, t + gap]) == [t]
  {
    assert [t, t + gap][1..] == [t + gap];
    assert AcceptedPulses(t, [t + gap]) == AcceptedPulses(t, []);
  }

  /** Two beats at least MinPulseDt apart both pulse. */
  lemma SpacedBeatsPulseTwice(last: real, t: real, gap: real)
    requires t - last >= MinPulseDt && gap >= MinPulseDt
    ensures AcceptedPulses(last, [t, t + gap]) == [t, t + gap]
  {
    assert [t, t + gap][1..] == [t + gap];
    assert AcceptedPulses(t, [t + gap]) == [t + gap] + AcceptedPulses(t + gap, []);
  }

  /** As written, a pulse accepted in the last MinPulseDt milliseconds of a
      day blocks every later pulse: no time-of-day reading passes the test. */
  lemma MidnightLockout(last: real, now: real)
    requires DayMs - MinPulseDt < last < DayMs && IsTimeOfDay(now)
    ensures !PulseDue(last, now)
  {
  }

  /** As written, any reading after midnight that is earlier in the day than
      the last pulse fails the test, however long ago that pulse was. */
  lemma AfterMidnightDropped(last: real, now: real)
    requires IsTimeOfDay(last) && IsTimeOfDay(now) && now < last
    ensures !PulseDue(last, now)
  {
  }

  /** A pulse 600 ms after one at 23:59:59.900: dropped as written, accepted
      with the wrap taken into account. */
  lemma MidnightDropsDuePulse()
    ensures !PulseDue(DayMs - 100.0, 500.0)
    ensures PulseDueWrapped(DayMs - 100.0, 500.0)
  {
  }

  /** The time-of-day reading `e` milliseconds after the reading `last`,
      for an elapsed time below one day. */
  function ReadingAfter(last: real, e: real): (t: real)
    requires IsTimeOfDay(last) && 0.0 <= e < DayMs
    ensures IsTimeOfDay(t)
    ensures t == last + e || t == last + e - DayMs
  {
    if last + e < DayMs then last + e else last + e - DayMs
  }

  /** With the wrap taken into account, a pulse is accepted exactly when at
      least MinPulseDt milliseconds really elapsed since the last one. */
  lemma PulseDueWrappedIffElapsed(last: real, e: real)
    requires IsTimeOfDay(last) && 0.0 <= e < DayMs
    ensures Elapsed(last, ReadingAfter(last, e)) == e
    ensures PulseDueWrapped(last, ReadingAfter(last, e)) <==> e >= MinPulseDt
  {
  }

  /** Within one day the corrected test agrees with the one as written. */
  lemma PulseDueWrappedAgreesWithinDay(last: real, now: real)
    requires last <= now
    ensures PulseDueWrapped(last, now) == PulseDue(last, now)
  {
  }

  /** With the wrap taken into account, Pulse behaves as written whenever the
      clock has not passed midnight since the last pulse. */
  lemma PulseStepWrappedAgreesWithinDay(d: DeviceState, c: LyncColor, length: int, now: real)
    requires d.lastPulseTime <= now
    ensures PulseStepWrapped(d, c, length, now) == PulseStep(d, c, length, now)
  {
    PulseDueWrappedAgreesWithinDay(d.lastPulseTime, now);
  }

  /** Across midnight, the pulse the wrapper drops as written is issued by the
      corrected wrapper. */
  lemma MidnightPulseStepDiffers(d: DeviceState, c: LyncColor)
    requires d.lastPulseTime == DayMs - 100.0
    ensures PulseStep(d, c, DefaultPulseLength, 500.0) == d
    ensures PulseStepWrapped(d, c, DefaultPulseLength, 500.0).lastPulseTime == 500.0
  {
    MidnightDropsDuePulse();
  }

  /** Wrapper around the Blynclight controller. */
  class BlyncHelper {
    /** Number of connected lights, fixed when the wrapper is made. */
    const numDevices: int
    /** Colour of the light at index 0, as last set through this wrapper. */
    var color: LyncColor
    /** Clock reading of the last accepted pulse. */
    var lastPulseTime: real
    /** The commands sent to the controller so far. */
    var log: seq<Command>

    function State(): DeviceState
      reads this
    {
      DeviceState(color, lastPulseTime, log)
    }

    /** `devices` is what the controller's device initialisation reports. */
    constructor (devices: int, now: real)
      ensures numDevices == devices
      ensures State() == DeviceState(White, now, [])
    {
      numDevices := devices;
      color := White;
      lastPulseTime := now;
      log := [];
    }

    method Pulse(c: LyncColor, length: int, now: real)
      modifies this
      ensures State() == PulseStep(old(State()), c, length, now)
    {
      if length < 0 {
        return;
      }
      var dt := now - lastPulseTime;
      if dt < MinPulseDt {
        return;
      }
      lastPulseTime := now;
      log := log + [ResetLight(0)];
      SetColor(c, 0);
    }

    /** Pulse() without arguments: pulse in the current colour. */
    method PulseCurrent(now: real)
      modifies this
      ensures State() == PulseStep(old(State()), old(color), DefaultPulseLength, now)
    {
      Pulse(color, DefaultPulseLength, now);
    }

    method SetColorAll(c: LyncColor)
      modifies this
      ensures State() == SetColorAllStep(old(State()), c, numDevices)
    {
      var i := 0;
      while i < numDevices
        invariant 0 <= i && (i <= numDevices || i == 0)
        invariant State() == SetColorAllStep(old(State()), c, i)
      {
        SetColor(c, i);
        i := i + 1;
      }
    }

    method TurnOff()
      modifies this
      ensures State() == TurnOffStep(old(State()), numDevices)
    {
      var i := 0;
      while i < numDevices
        invariant 0 <= i && (i <= numDevices || i == 0)
        invariant State() == TurnOffStep(old(State()), i)
      {
        log := log + [ResetLight(i)];
        i := i + 1;
      }
    }

    /** SetColor(c, index); the Color property setter is SetColor(c, 0). */
    method SetColor(c: LyncColor, index: int)
      modifies this
      ensures State() == SetColorStep(old(State()), c, index)
    {
      log := log + [ColorCommand(c, index)];
      color := c;
    }
  }
}
