# Sound-level meter: a Dafny model of the analysis core

The meter listens to the microphone, reads one byte per frequency bin from
an analyser once per repaint, turns each frame into an integer decibel
reading, keeps the peak, colours the view by the reading and describes it
in one of eight bands. This project models the integer-valued logic inside
`src/App.tsx`:

- `Energy`: the gain-corrected energy sum of a frame. A bin `v < 128` is
  boosted by 1.5; the corrected bins are squared and summed. Twice a
  corrected bin is an integer (`3v` or `2v`), so the model sums four times
  the energy, an integer, and relates it to the same fold over the reals.
- `Estimator`: the reading `max(10, round(db - 20))`. The floating-point
  chain (square root, power 1.5, log10, rounding) is the parameter `cal`,
  a function from four times the energy and the bin count to the rounded
  value; `ReferenceClamped(cal)` states its one exact behaviour: silence
  gives `-20`.
- `Display`: the hue `clamp(270 - 2 * dB, 0, 270)`, the effect that applies
  it only while listening to a positive reading, and the eight-band
  description with thresholds 20, 30, …, 80.
- `AcquisitionErrors`: the message alerted when starting fails, for six
  known `DOMException` names, other `DOMException`s, other `Error`s and
  non-`Error` values.
- `Meter`: the component state (`listening`, `initializing`, `decibels`,
  `peak`, `spectrum`, `hue`, plus the stream reference) with one pure
  function per transition, the button gating, and `Step`/`Run` over
  events.

Two behaviours of `src/App.tsx` are worth knowing; the model keeps both:

- src/App.tsx:182: the gain step is not monotone. A bin of 127 is boosted
  to 190.5 while a bin of 128 stays 128, so raising one bin can lower the
  frame's energy. `Energy.CorrectionIsNotMonotone` exhibits it.
- src/App.tsx:208-233: the stream is stored in its reference at line 208,
  before the audio graph is built. A throw after that line (for example
  from `new AudioContext()`) reaches the `catch`, which does not stop the
  stream's tracks, so the microphone stays in use while the meter is idle.
  A later successful start overwrites the reference, so that stream is
  never stopped. `Meter.FailureAfterAcquisitionKeepsMicrophone` exhibits
  both.

## Model

| member | source | states |
|---|---|---|
| `Energy.Amplified` | src/App.tsx:182 | the corrected bin `val < 128 ? val * 1.5 : val`, over the reals, is never below the bin and never above 255 |
| `Energy.Doubled` | src/App.tsx:182 | twice the corrected bin equals 2 × the source's `val < 128 ? val * 1.5 : val`, is at most 510 (so the corrected bin lies in [0, 255]), and is 0 exactly for bin 0 |
| `Energy.RealEnergy` | src/App.tsx:181-184 | the `reduce` fold from 0 over the reals, left to right, adding each squared corrected bin; it lies in [0, len · 255²] |
| `Energy.QuadEnergy` | src/App.tsx:181-184 | four times the real-valued left fold of squared corrected bins, and at most `len · 510²` (energy at most `len · 255²`) |
| `Energy.SquareOfDoubled` | src/App.tsx:182-183 | the squared doubled bin is four times the squared corrected bin and at most 510² |
| `Energy.AccumulateEnergy` | src/App.tsx:181-184 | the loop over the frame returns four times the source's energy sum |
| `Energy.SilentIffAllZero` | src/App.tsx:181-184 | the energy is 0 if and only if every bin is 0 |
| `Energy.FullScaleEnergy` | src/App.tsx:180-188 | an all-255 frame has energy `len · 255²`, so its mean square is 255² and its amplitude exactly 1 |
| `Energy.PartialSumsAreExact` | src/App.tsx:181-184 | for a frame of at most 4096 bins every partial sum is a quarter of an integer below 2^53, so the double-precision fold is exact |
| `Energy.CorrectionIsNotMonotone` | src/App.tsx:182 | raising a bin from 127 to 128 lowers the frame's energy (the reading itself depends on the abstract chain) |
| `Estimator.ReferenceClamped` | src/App.tsx:187-192 | the one assumption made of the floating-point chain: zero energy gives pressure 0, the `max` with the 1e-5 reference gives log10(1) = 0, and the rounded value is the offset -20 |
| `Estimator.Estimate` | src/App.tsx:192-195 | the reading is at least 10; it equals the rounded calibrated value exactly when that value is at least 10, and is 10 exactly when that value is at most 10 |
| `Estimator.SilentFrameReadsFloor` | src/App.tsx:187-195 | an all-zero frame reads exactly 10, via the reference clamp (db 0, offset to -20, floored to 10) |
| `Estimator.AboveFloorMeansSound` | src/App.tsx:187-195 | a reading above 10 implies some bin is non-zero |
| `Display.HueFor` | src/App.tsx:32-33 | the hue lies in [0, 270]; it is 0 once the reading is at least 135 and 270 for readings at most 0 |
| `Display.HueAntitone` | src/App.tsx:32-33 | a louder reading never gets a larger hue |
| `Display.HueRecoversReading` | src/App.tsx:32-33 | on readings in [0, 135] the hue is even and `(270 - hue) / 2` gives the reading back |
| `Display.HueEffect` | src/App.tsx:28-35 | the hue is recomputed only while listening to a positive reading; otherwise the previous hue (initially 240) stays |
| `Display.HueEffectIdempotent` | src/App.tsx:28-35 | running the colour effect again on its own result changes nothing |
| `Display.BandFrom` | src/App.tsx:305-314 | the band found by scanning the thresholds is the one whose lower threshold is reached and whose upper threshold is not |
| `Display.Band` | src/App.tsx:305-314 | the band index is below 8, with the reading between its lower and upper thresholds |
| `Display.BandMonotone` | src/App.tsx:305-314 | the band index never decreases as the reading rises |
| `Display.LabelsDistinct` | src/App.tsx:306-313 | the eight labels are pairwise distinct |
| `Display.Describe` | src/App.tsx:305-314 | the description is the label of the reading's band: "Çok Sessiz" below 20, "Tehlikeli" from 80 on |
| `Display.DescribeIdentifiesBand` | src/App.tsx:305-314 | two readings get the same description if and only if they lie in the same band |
| `AcquisitionErrors.FaultName` | src/App.tsx:266-276 | the `DOMException` name the table tests for each fault; every one ends in "Error" |
| `AcquisitionErrors.Classify` | src/App.tsx:265-277 | a known name classifies to the fault with that name; an unknown name matches none of the six |
| `AcquisitionErrors.ClassifyName` | src/App.tsx:265-277 | classifying a fault's own name yields that fault |
| `AcquisitionErrors.FaultMessage` | src/App.tsx:266-277 | the fixed message of each of the six faults, none of which begins with the generic prefix or is the "unknown" message |
| `AcquisitionErrors.AlertMessage` | src/App.tsx:263-285 | a known `DOMException` gets its fault's message; another `DOMException` gets the generic prefix, its name, " - " and its message, or "Detay yok" when the message is empty; another `Error` gets the generic prefix and its message, or its `toString()` when the message is empty; anything else gets the "unknown" message |
| `AcquisitionErrors.FaultMessagesDistinct` | src/App.tsx:266-277 | the six fixed messages are pairwise distinct |
| `AcquisitionErrors.FaultOfMessage` | src/App.tsx:266-277 | reading a message back yields a fault only when it is that fault's message |
| `AcquisitionErrors.FaultOfFaultMessage` | src/App.tsx:266-277 | every fixed message reads back to its own fault |
| `AcquisitionErrors.GenericIsNoFaultMessage` | src/App.tsx:266-282 | no message beginning with the generic prefix is one of the six fixed messages |
| `AcquisitionErrors.NotAFaultMessage` | src/App.tsx:266-282 | a message beginning with the generic prefix reads back to no fault |
| `AcquisitionErrors.UnknownIsNoFaultMessage` | src/App.tsx:266-284 | the "unknown" message reads back to no fault |
| `AcquisitionErrors.AlertIdentifiesFault` | src/App.tsx:263-285 | the alert determines the fault: it reads back to the fault of a known `DOMException` name and to none for every other thrown value |
| `Meter.Press` | src/App.tsx:358-360 | the control is ignored exactly while initializing, stops exactly when listening, and starts exactly when idle |
| `Meter.BeginStart` | src/App.tsx:199 | starting sets `initializing` and changes nothing else |
| `Meter.Acquire` | src/App.tsx:208 | the acquired stream replaces the reference; a live stream it replaces is counted as abandoned |
| `Meter.Tick` | src/App.tsx:222-227 | the reading is the frame's estimate (≥ 10); the peak is the maximum of the old peak and the reading; the spectrum is the 4096-bin frame; nothing else changes |
| `Meter.Succeed` | src/App.tsx:208-232 | a successful start stores the stream (counting a live stream it replaces as abandoned), runs the first tick, so the peak becomes the maximum of the old peak and the reading, and ends listening |
| `Meter.Fail` | src/App.tsx:233-287 | a failed start leaves `listening`, `decibels`, `peak`, `spectrum` and `hue` unchanged; a stream acquired before the throw stays live, replacing (and abandoning) any live stream the reference held |
| `Meter.Finish` | src/App.tsx:288-290 | every exit from a start clears `initializing` and changes nothing else |
| `Meter.Stop` | src/App.tsx:293-303 | stopping clears `listening`, resets the peak to 0, drops the spectrum, stops the stream, and keeps the reading and the hue |
| `Meter.Settle` | src/App.tsx:28-35 | the colour effect only changes the hue, and only while listening to a positive reading |
| `Meter.Step` | src/App.tsx:198-303 | every event keeps the state invariant; an animation frame does nothing unless listening, and while listening never lowers the peak; leaving listening resets peak and spectrum |
| `Meter.InitialIsValid` | src/App.tsx:5-10 | the initial state satisfies the invariant |
| `Meter.RunPreservesValid` | src/App.tsx:198-303 | every state reachable from a valid state by events is valid |
| `Meter.ListeningNeverReacquires` | src/App.tsx:358-360 | while listening no event acquires another stream or begins another start |
| `Meter.PressWhileIdleStarts` | src/App.tsx:199 | a press on an idle meter begins a start and changes nothing else |
| `Meter.PressWhileListeningStops` | src/App.tsx:293-303 | a press while listening stops with peak 0, no spectrum, unchanged reading and hue, and the next press starts afresh |
| `Meter.GrantedStartListens` | src/App.tsx:208-232 | a successful start ends listening and not initializing, showing the first frame's reading as peak and its hue |
| `Meter.RefusedStartStaysIdle` | src/App.tsx:233-290 | a failed start ends idle and not initializing, with reading, peak, spectrum and hue unchanged |
| `Meter.StopIdempotent` | src/App.tsx:293-303 | stopping twice is stopping once |
| `Meter.QuietAfterStop` | src/App.tsx:294-296 | once stopped, any number of animation frames leave the state unchanged; this holds by construction of `Step`, which delivers animation frames only while listening, the modelling of `cancelAnimationFrame` recorded under "Left out" |
| `Meter.PeakNeverFalls` | src/App.tsx:222-228 | across any number of ticks the meter stays listening and valid and the peak never falls |
| `Meter.PeakCoversReadings` | src/App.tsx:224-226 | after a run of ticks the peak is at or above the reading of every frame in it |
| `Meter.LastReadingShown` | src/App.tsx:224-225 | after a run of ticks the reading shown is the last frame's |
| `Meter.FailureAfterAcquisitionKeepsMicrophone` | src/App.tsx:201-290 | a start failing after acquisition leaves the stream live while idle; a later start and stop leave one stream abandoned |

## Left out

- Estimator.Estimate: the square root, division by 255, `pow(·, 1.5)`, doubling, `log10` against the 1e-5 reference and `Math.round` are not reproduced; they are the parameter `cal`, of which only the silent case (`ReferenceClamped`) is stated.
- Estimator.Estimate: requires a non-empty frame. On an empty frame the source divides 0 by 0 and returns NaN; the analyser frame always has 4096 bins.
- `getUserMedia` constraints, `AudioContext`, the analyser's smoothing (0.2) and range (-90 to -10 dB) and its FFT: platform calls. Only the frame length `fftSize / 2 = 4096` is kept; a frame is an event parameter.
- `requestAnimationFrame` and `cancelAnimationFrame`: an animation-frame event is delivered only while listening, which is what cancelling the pending frame on stop achieves.
- The unmount cleanup (lines 17-26): component teardown is not an event of the model.
- The `AudioContext` created on each start is never closed; contexts are not modelled.
- Copying the frame before publishing it (line 227): values are immutable here, so a published frame cannot be changed by the next read.
- Canvas drawing, random particles, markup and styling: presentation only.
- Console logging and `alert`: output only; the alert's text is `AcquisitionErrors.AlertMessage`.
- The initial message at line 263 is overwritten on every path and never shown.
- React's rendering and batching: the colour effect is applied after each event; `Display.HueEffectIdempotent` makes this agree with running it only when its inputs change.
