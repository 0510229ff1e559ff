# Musync audio visualizer: a Dafny model

Musync listens to the audio the PC is playing and drives a Blynclight USB
light. It does this in two halves:

- A capture callback averages each stereo byte pair into one mono sample and
  queues it.
- An analysis loop takes 16384-sample windows off the queue. For each window it:
  - measures the bass peak and two band powers of the window's spectrum;
  - keeps a running mean of the band-power ratio and tracks silence;
  - picks a colour: the manually chosen one, White while silent, or a bucket
    of the squared mean;
  - either pulses the light (on a bass beat, rate-limited to one pulse per
    300 ms) or sets its colour.

The model covers this pipeline as a sequential state machine, in six modules:

- `Wrappers` holds `Option`.
- `Blync` models `Musync/BlyncHelper.cs`.
  - It covers the colour enum and the controller commands.
  - The class `BlyncHelper` keeps the colour field and the last-pulse time.
  - The controller is a log of the commands it has received.
- `FFTHelper` models `Musync/Musync/FFTHelper.cs`.
  - It covers the constants, the colour buckets, the beat threshold and the
    truncating frequency/bin conversions.
  - The class `FftHelper` holds the static sample rate.
- `AudioReader` models the linear bucketing of `Musync/Musync/AudioReader.cs`,
  which nothing calls.
- `Analysis` states one analysis cycle of `Musync/Musync.cs` as pure
  functions over the program state, with the lemmas about them.
  - `CycleStep` is one loop iteration.
  - `Run` folds a sequence of capture and poll events.
- `Musync` holds the class `Musync` and the loops of the source.
  - The loops are the channel-averaging loop, the dequeue loop, the peak loop
    and the two band-power accumulation loops.
  - Each method is proved to implement the `Analysis` function for its step.

Where the code and its design description disagree, the model follows the code:

- **Endpoint change.** The sample buffer is not cleared on an endpoint change.
  The cycle is only skipped (`Analysis.EndpointChangeSkips`).
- **Silence counter.** The zero-ratio counter counts every zero-ratio cycle
  since the last exit from silence, not only consecutive ones.
  `Analysis.SeparatedZeroCyclesSilence` shows two zero cycles with a
  non-zero one between them entering silence.
- **Leaving silence.** The new ratio is folded into the mean with
  `(mean * count + ratio) / (count + 1)`. It is not a reset. While the
  sample rate stays the same, a silent state holds mean 0 and count 0, so
  the result coincides with a reset to `ratio` and count 1
  (`Analysis.SmoothKeepsSilentReset`). If the rate falls during silence,
  the count can grow while still silent
  (`Analysis.RateDropLetsCountGrowWhileSilent`).
- **Automatic mode.** `LyncColor.Automatic` is not in the enum of
  `Musync/BlyncHelper.cs`. The code uses it as "menu index minus one" for
  item 0, so the model makes it a separate colour mode (`Analysis.ColorMode`).

Inputs the source gets from libraries or the OS are parameters:

- the spectrum of each window (a sequence of 16384 non-negative reals);
- the default endpoint id and the capture sample rate;
- the clock reading in milliseconds of the day;
- the number of connected lights.

Doubles are modelled as reals. The C# `(int)` cast is truncation toward zero
(`FFTHelper.Trunc`).

The wrapper, the analysis cycle and the event loop use the debounce as
written, including its behaviour across midnight (see Findings).
`Blync.PulseStepWrapped` is the corrected transition, stated beside it.

## Model

| member | source | states |
|---|---|---|
| Blync.Code | Musync/BlyncHelper.cs:15-18 | each colour's enum value lies in 0..6 |
| Blync.OfCode | Musync/BlyncHelper.cs:15-18 | an integer names a declared colour exactly when it lies in 0..6, and that colour's value is the integer |
| Blync.CodeRoundTrip | Musync/BlyncHelper.cs:15-18 | converting a colour to its enum value and back gives the colour |
| Blync.ColorCommand | Musync/BlyncHelper.cs:125-148 | the switch sends the light command of the requested colour to the requested device |
| Blync.SetColorStep | Musync/BlyncHelper.cs:123-151 | SetColor appends exactly one command to the log, for device `index` and lighting colour `c`; the colour field becomes `c` whatever the index; the pulse time is kept |
| Blync.PulseStep | Musync/BlyncHelper.cs:80-94 | the wrapper changes exactly when the length is non-negative and the plain difference `now - lastPulseTime` is at least 300; a pulse then records `now`, sends ResetLight(0) followed by the colour command for device 0, and leaves the colour field at `c`; otherwise nothing is sent and nothing changes |
| Blync.SetColorAllStep | Musync/BlyncHelper.cs:101-107 | one colour command per device index 0..n-1 in order; the colour field changes only if at least one device exists |
| Blync.TurnOffStep | Musync/BlyncHelper.cs:109-115 | ResetLight for each device index in order; colour and pulse time unchanged |
| Blync.ColorAllCommandsAt | Musync/BlyncHelper.cs:101-107 | SetColorAll sends max(n, 0) commands, the k-th lighting colour `c` on device k |
| Blync.ResetAllCommandsAt | Musync/BlyncHelper.cs:109-115 | TurnOff sends max(n, 0) commands, the k-th being ResetLight(k) |
| Blync.AcceptedPulsesSpaced | Musync/BlyncHelper.cs:42-89 | among successive beat requests, every accepted pulse comes at least 300 ms after the accepted pulse before it |
| Blync.PulseTraceMatchesAccepted | Musync/BlyncHelper.cs:82-93 | after a series of beat requests the log has grown by two commands per accepted pulse and none per dropped one, and the last-pulse time is that of the last accepted pulse |
| Blync.CloseBeatsPulseOnce | Musync/BlyncHelper.cs:84-87 | a second beat less than 300 ms after an accepted one is dropped |
| Blync.SpacedBeatsPulseTwice | Musync/BlyncHelper.cs:84-89 | two beats 300 ms or more apart are both accepted |
| Blync.Elapsed | Musync/BlyncHelper.cs:84-85 | the time between two time-of-day readings lies in [0, one day), and it is the plain difference when the clock has not wrapped |
| Blync.MidnightLockout | Musync/BlyncHelper.cs:84-87 | as written, after a pulse in the last 300 ms of a day no later time-of-day reading passes the debounce test |
| Blync.AfterMidnightDropped | Musync/BlyncHelper.cs:84-87 | as written, every reading earlier in the day than the last pulse fails the debounce test |
| Blync.MidnightDropsDuePulse | Musync/BlyncHelper.cs:84-87 | a pulse 600 ms after one at 23:59:59.900 is dropped as written and accepted by the wrap-aware test |
| Blync.ReadingAfter | Musync/BlyncHelper.cs:84 | the clock reading a given time after another is again a time of day, the sum taken modulo one day |
| Blync.PulseDueWrappedIffElapsed | Musync/BlyncHelper.cs:84-87 | the wrap-aware test accepts a pulse exactly when at least 300 ms really elapsed since the last one |
| Blync.PulseDueWrappedAgreesWithinDay | Musync/BlyncHelper.cs:85-87 | when the clock has not wrapped, the wrap-aware test and the test as written agree |
| Blync.PulseStepWrapped | Musync/BlyncHelper.cs:80-94 | the corrected Pulse: it changes the wrapper exactly when the length is non-negative and at least 300 ms have elapsed across midnight, with the same commands and fields as an accepted pulse as written |
| Blync.PulseStepWrappedAgreesWithinDay | Musync/BlyncHelper.cs:84-94 | when the clock has not passed midnight since the last pulse, the corrected Pulse and Pulse as written give the same state |
| Blync.MidnightPulseStepDiffers | Musync/BlyncHelper.cs:84-89 | a beat 600 ms after a pulse at 23:59:59.900 leaves the wrapper unchanged as written, and is a pulse at 500 ms in the corrected wrapper |
| Blync.BlyncHelper.constructor | Musync/BlyncHelper.cs:48-53 | the device count is the controller's, the log is empty, and the last-pulse time is the creation time |
| Blync.BlyncHelper.Pulse | Musync/BlyncHelper.cs:80-94 | the new state is PulseStep of the old |
| Blync.BlyncHelper.PulseCurrent | Musync/BlyncHelper.cs:96-99 | Pulse() is a default-length pulse in the current colour |
| Blync.BlyncHelper.SetColorAll | Musync/BlyncHelper.cs:101-107 | the new state is SetColorAllStep of the old for the device count |
| Blync.BlyncHelper.TurnOff | Musync/BlyncHelper.cs:109-115 | the new state is TurnOffStep of the old for the device count |
| Blync.BlyncHelper.SetColor | Musync/BlyncHelper.cs:123-151 | the new state is SetColorStep of the old |
| FFTHelper.FreqToColor | Musync/Musync/FFTHelper.cs:24-55 | the result is the bucket of ratio squared; it is White exactly when ratio squared is 0 |
| FFTHelper.BucketsDisjoint | Musync/Musync/FFTHelper.cs:32-54 | no squared ratio lies in two buckets |
| FFTHelper.FreqToColorIsBucket | Musync/Musync/FFTHelper.cs:24-55 | FreqToColor returns a colour exactly when the squared ratio lies in that colour's bucket |
| FFTHelper.FreqToColorSymmetric | Musync/Musync/FFTHelper.cs:26 | a ratio and its negation give the same colour |
| FFTHelper.FreqToColorMonotone | Musync/Musync/FFTHelper.cs:32-54 | a larger squared ratio never picks a lower bucket in the threshold order |
| FFTHelper.Trunc | Musync/Musync/FFTHelper.cs:64 | the cast truncates toward zero: the result is the largest integer not above a non-negative input and the smallest not below a negative one |
| FFTHelper.TruncMonotone | Musync/Musync/FFTHelper.cs:64 | truncation never decreases |
| FFTHelper.FreqToIndex | Musync/Musync/FFTHelper.cs:62-65 | for a non-negative frequency the bin is the integer part of freq * 16384 / rate |
| FFTHelper.IndexToFreq | Musync/Musync/FFTHelper.cs:67-70 | the frequency times 16384 equals the index times the rate |
| FFTHelper.FreqToIndexMonotone | Musync/Musync/FFTHelper.cs:62-65 | at a fixed positive rate a higher frequency never maps to a lower bin |
| FFTHelper.IndexRoundTrip | Musync/Musync/FFTHelper.cs:62-70 | converting a bin index to its frequency and back gives the index |
| FFTHelper.DefaultRateBandEdges | Musync/Musync/FFTHelper.cs:16-65 | at 48 kHz, 20, 200, 1000 and 4000 Hz map to bins 6, 68, 341 and 1365 |
| FFTHelper.FftHelper.constructor | Musync/Musync/FFTHelper.cs:22 | the shared rate starts at 48000 |
| FFTHelper.FftHelper.SetSampleRate | Musync/Musync/FFTHelper.cs:72-75 | the shared rate becomes `fs` and nothing else changes |
| AudioReader.StepValue | Musync/Musync/AudioReader.cs:19-21 | the bucket width is the integer quotient 15500 / 8 = 1937 |
| AudioReader.BucketIndex | Musync/Musync/AudioReader.cs:33 | for 500..16000 Hz the index lies in 0..8 and is the number of whole 1937 Hz steps above 500 Hz |
| AudioReader.FreqToColor | Musync/Musync/AudioReader.cs:17-38 | below 500 Hz White, above 16000 Hz Magenta, otherwise the bucket index as the enum value |
| AudioReader.BucketIndexMonotone | Musync/Musync/AudioReader.cs:33 | within the range the index never decreases with the frequency |
| AudioReader.TopBucketsUndeclared | Musync/Musync/AudioReader.cs:33-35 | from 500 + 7 * 1937 Hz to 16000 Hz the result is 7 or 8, which no declared colour has |
| AudioReader.LowerBucketsDeclared | Musync/Musync/AudioReader.cs:23-35 | below 500 + 7 * 1937 Hz the result is always a declared colour |
| Analysis.ChannelAverage | Musync/Musync.cs:149-150 | the mono sample is the byte-wrapped sum of the pair shifted right by two, so at most 63 |
| Analysis.PairCount | Musync/Musync.cs:147 | the loop reads n/2 pairs for even n, (n+1)/2 for odd n, none for n <= 0 |
| Analysis.MonoSamplesAt | Musync/Musync.cs:144-155 | the samples of a chunk are one per pair, in buffer order, the k-th being ChannelAverage of bytes 2k and 2k+1, each at most 63 |
| Analysis.Enqueue | Musync/Musync.cs:142-157 | the queue grows by exactly the chunk's pair count, its old contents stay at the front, the k-th new sample is ChannelAverage of bytes 2k and 2k+1, and nothing but the queue changes |
| Analysis.MaxMagnitudeIsPeak | Musync/Musync.cs:206-218 | the bass peak is at least 0 and at least every magnitude in the range, and is 0 or one of them |
| Analysis.SumSquaresNonNegative | Musync/Musync.cs:224-237 | a band power is never negative, and is 0 when every magnitude in the band is 0, in particular when the band is empty |
| Analysis.PsdRatio | Musync/Musync.cs:239-247 | the ratio is non-negative, 0 when the lower band is silent (no division happens), and otherwise ratio * 1.2 * lower = upper |
| Analysis.PsdRatioZero | Musync/Musync.cs:239-247 | the ratio is 0 exactly when one of the two bands is silent |
| Analysis.FoldMean | Musync/Musync.cs:258-271 | the new mean times the new count equals the old mean times the old count plus the ratio |
| Analysis.Smooth | Musync/Musync.cs:249-272 | silence is left only on a positive ratio, which resets the zero counter; it is entered, with the mean and count reset, once the counter passes 3 * 16384 / rate; the counter otherwise only counts zero ratios; every cycle that does not enter the silence branch, including the one leaving silence, folds the ratio into the mean with count + 1 |
| Analysis.SmoothKeepsInv | Musync/Musync.cs:249-272 | count, counter and mean stay non-negative, and a silent state has mean 0 |
| Analysis.SmoothKeepsSilentReset | Musync/Musync.cs:249-272 | at a fixed rate, a silent state keeps mean 0, count 0 and a counter past the threshold |
| Analysis.RateDropLetsCountGrowWhileSilent | Musync/Musync.cs:262-272 | after the rate drops, a silent state can fold a zero ratio and raise the count while staying silent |
| Analysis.TwoZeroCyclesSilence | Musync/Musync.cs:249-267 | at 48 kHz, two zero-ratio cycles from the start enter silence |
| Analysis.SeparatedZeroCyclesSilence | Musync/Musync.cs:249-267 | two zero-ratio cycles with a positive one between them still enter silence: the counter is not consecutive |
| Analysis.FoldMeanIsMean | Musync/Musync.cs:258-271 | folding a ratio into the mean of a list gives the mean of the list extended by it |
| Analysis.RunningMeanIsMean | Musync/Musync.cs:161-272 | over any series of cycles, the running mean is the arithmetic mean of the ratios since the silence-entry branch last reset it, and the count is their number |
| Analysis.MenuSelection | Musync/Musync.cs:396-400 | item 0 is Automatic; item i > 0 selects the colour whose enum value is i - 1 and whose name is the item's label |
| Analysis.MenuSelectsEveryColor | Musync/Musync.cs:396-400 | each colour is selected by exactly one menu item, its enum value plus one |
| Analysis.DecideColor | Musync/Musync.cs:274-286 | through ColorAutomated, Manual yields the chosen colour, Automatic and silent yields White, Automatic otherwise yields the bucket of the squared mean |
| Analysis.Decide | Musync/Musync.cs:274-296 | through ShouldPulse, a pulse is requested exactly when the bass peak exceeds 0.7, in the decided colour |
| Analysis.ManualNeverSuppressesPulse | Musync/Musync.cs:275-296 | the manual mode uses its colour and pulses exactly when the automatic mode would |
| Analysis.BandEdges | Musync/Musync.cs:204-222 | the bass range ends where the lower band starts, the lower band ends where the upper one starts, and all bounds are ordered inside the window |
| Analysis.BandMetrics | Musync/Musync.cs:204-237 | the bass peak and both band powers are non-negative |
| Analysis.CycleStep | Musync/Musync.cs:170-299 | one iteration keeps the rates valid and the colour mode unchanged |
| Analysis.EndpointChangeSkips | Musync/Musync.cs:173-183 | a new endpoint id is recorded and both rates resubscribed, while the buffer, the light and the smoothing state stay as they were |
| Analysis.UnderfullSkips | Musync/Musync.cs:185-189 | with fewer than 16384 samples queued nothing changes |
| Analysis.CycleConsumesWindow | Musync/Musync.cs:191-200 | an analysed cycle removes exactly the oldest 16384 samples and keeps the rest in order |
| Analysis.CyclePulsesOnBeat | Musync/Musync.cs:274-296 | an analysed cycle pulses the light in the decided colour when the bass peak exceeds 0.7 and sets the colour otherwise |
| Analysis.CycleKeepsInv | Musync/Musync.cs:161-299 | the smoothing invariant survives a cycle |
| Analysis.EventStep | Musync/Musync.cs:142-299 | a capture chunk or a poll keeps the rates valid and the mode unchanged |
| Analysis.Run | Musync/Musync.cs:159-300 | a series of events keeps the rates valid and the count non-negative |
| Analysis.RunUnfold | Musync/Musync.cs:170 | running events from a position is its first event followed by the rest |
| Analysis.RunKeepsInv | Musync/Musync.cs:159-300 | the smoothing invariant holds after any series of events |
| Analysis.RunKeepsMode | Musync/Musync.cs:159-300 | the analysis loop never changes the colour mode |
| Musync.PeakBassMagnitude | Musync/Musync.cs:204-218 | the loop computes the running peak: at least 0, at least every magnitude in the range, and 0 or one of them |
| Musync.BandPower | Musync/Musync.cs:224-237 | the accumulation loop computes the sum of squared magnitudes over the band, which is non-negative |
| Musync.Analyse | Musync/Musync.cs:204-237 | the bounds and the three loops compute BandMetrics |
| Musync.Ratio | Musync/Musync.cs:239-247 | the ratio local is PsdRatio of the two band powers |
| Musync.UpdateSmoothing | Musync/Musync.cs:249-272 | the updates to the loop's locals are Smooth |
| Musync.Musync.constructor | Musync/Musync.cs:123-140 | the endpoint is recorded, the buffer empty, the light set to White on device 0, the mode Automatic and the visualizer on |
| Musync.Musync.SetLoopbackSource | Musync/Musync.cs:302-315 | both the loop's rate and the shared conversion rate become the capture's rate |
| Musync.Musync.HandleFrame | Musync/Musync.cs:142-157 | the new state is Enqueue of the old |
| Musync.Musync.DequeueWindow | Musync/Musync.cs:191-200 | the window is the oldest 16384 samples and the buffer keeps the rest |
| Musync.Musync.Cycle | Musync/Musync.cs:170-299 | the new state and smoothing locals are CycleStep of the old |
| Musync.Musync.Drive | Musync/Musync.cs:274-296 | the light request is Actuate of Decide for the current mode |
| Musync.Musync.HandleEvent | Musync/Musync.cs:142-299 | a chunk or a poll changes the state as EventStep |
| Musync.Musync.HandleFft | Musync/Musync.cs:159-300 | with the visualizer on, a fresh subscription and reset locals followed by the events give the state of Run; with it off, only the subscription happens |
| Musync.Musync.SetCubeColor | Musync/Musync.cs:396-400 | the mode becomes the menu item's selection and nothing else changes |
| Musync.Musync.ToggleVisualizer | Musync/Musync.cs:333-355 | the flag flips; switching off empties the buffer and turns every light off |
| Musync.Musync.DisposeMusync | Musync/Musync.cs:434-452 | the visualizer is off, the buffer empty and every light turned off, twice when the visualizer was on |

## Left out

- The FFT (AForge `FourierTransform.FFT`, `Complex.Magnitude`) is a foreign library; each cycle receives the window's magnitude spectrum as an input.
- Audio capture and the endpoint query (NAudio `WasapiLoopbackCapture`, `MMDeviceEnumerator`) are foreign I/O; the endpoint id and the capture's sample rate are inputs, and the disposal of the old capture is not modelled.
- Concurrency: the capture callback and the analysis loop are interleaved as a sequence of atomic events, so the per-byte lock, the unlocked count check and a dequeue overlapping a chunk are not modelled; the `Thread.Sleep` calls, including the 25 ms pulse hold, are dropped.
- Musync.Musync.HandleFft: the loop in the source runs until the visualizer is switched off; the model runs it over a finite list of events, and the flag cannot change during it.
- The wall clock (`DateTime.UtcNow.TimeOfDay`) is a `now` parameter in milliseconds of the day.
- Floating point: doubles are reals, the NaN branch of FFTHelper.FreqToColor is dropped, and the `(int)` cast is not bounded to the 32-bit range; 32-bit counter overflow is not modelled.
- Analysis.RateFits: the model requires that the 4 kHz bin lies inside the window; at a rate that does not ensure this, the source would index past the spectrum, which is not modelled.
- Nightlight mode (`ToggleNightlight`, `CycleNightlight`, which uses `Random` and 30 s sleeps, and the nightlight branches of `ToggleVisualizer` and `SetCubeColor`) is not part of this model.
- The tray and menu construction, checkmarks and labels beyond the colour names, `ResetMusync` and `ExitMusync`, Program.cs and Form1.cs are UI plumbing outside the model.
- Musync/Musync/BlyncHelper.cs is a superseded static wrapper with its own enum and is not part of this model.
- The `Console.WriteLine` calls of AudioReader.cs are output only.
- `DisposeMusync` setting the device reference to null is not modelled; the light is turned off and the model keeps the object.
- The `Controller` and `NumDevices` getters of BlyncHelper only expose fields; `numDevices` is a field of the class.
- `SetColor`'s switch has no default branch; the closed colour datatype makes that branch impossible.
- Analysis.FrameFits: an odd byte count with a buffer of exactly that many bytes is excluded; there the source reads one byte past the buffer and throws, which the model does not capture.

## Findings

| source | as written | input that shows it | evidently intended | confidence | as-written member | corrected member |
|---|---|---|---|---|---|---|
| Musync/BlyncHelper.cs:84-87 | The debounce compares two `TimeOfDay` readings by plain subtraction. After midnight the difference is negative, so every beat fails the 300 ms test until the clock passes the last pulse's time plus 300 ms the next day; when the last pulse fell in the final 300 ms of a day, no later reading ever passes and pulses stop for good. | A last pulse at 86399900 ms (23:59:59.900) and a beat at 500 ms: 600 ms have elapsed, but 500 - 86399900 < 300, so the pulse is dropped. | Accept a pulse once 300 ms have actually elapsed, measuring across midnight. | not executed | Blync.PulseStep, through Blync.PulseDue, exhibited by Blync.MidnightLockout, Blync.AfterMidnightDropped, Blync.MidnightDropsDuePulse and Blync.MidnightPulseStepDiffers | Blync.PulseStepWrapped, through Blync.PulseDueWrapped, proved by Blync.PulseDueWrappedIffElapsed and Blync.PulseStepWrappedAgreesWithinDay |
