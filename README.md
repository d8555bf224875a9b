# audiom: a verified model of the visualizer core

audiom is a browser page that captures a microphone or audio interface with
the Web Audio API. It draws a 96-bar logarithmic spectrum with falling peak
markers and a horizontal level meter (RMS and peak in dBFS with a peak hold).
It can also play the captured signal back (the "monitor"), optionally to a
chosen output device through `setSinkId`. All of its logic lives in one
script, `app.js`. This project models the core of that script in Dafny and
proves properties of the model.

- `basics.dfy`: `Basics.Option`.
- `devices.dfy`, module `Devices`, covers the device pickers:
  - the USB-name heuristic;
  - the input and output comparators, and the sort as a permutation sorted by a comparator;
  - option labels (`🔌 USB: …`, `System Default — …`, `Input n`);
  - restoring the previous selection;
  - the placeholder for an empty list;
  - the USB counting loop behind the device count.
- `decibels.dfy`, module `Decibels`, holds what both views share:
  - a decibel reading that may be `-Infinity` (`Db = NegInf | Fin(real)`);
  - `Math.max`;
  - the peak-hold rule `max(current, held - rate * dt)` and its behaviour over many frames;
  - `clamp`, and the clamped normalisation that places a reading on screen.
- `spectrum.dfy`, module `Spectrum`, covers the bars:
  - the analyser and bar settings;
  - the per-bar averaging loop with its clamped upper index;
  - the in-place update of the held peaks (`barPeaksDb`, an `array`);
  - bar and peak-line geometry.
- `meter.dfy`, module `Meter`, covers the meter:
  - the RMS/peak loop over the time-domain samples;
  - `linearToDbFS` with its `1e-12` floor;
  - the meter's 18 dB/s peak hold;
  - the frame clock.
- `session.dfy`, module `Session`, covers the session:
  - `start`, `stop`, `render`, `setMonitoringEnabled`, and the handlers for
    the device picker, output picker, monitor button and gain slider;
  - all of these as methods of the class `Visualizer`, whose fields are the
    script's variables;
  - each method ties its new state (`Snapshot()`) to a function on the
    datatype `State`; the properties are lemmas about those functions, and
    `Consistent` is the invariant every handler keeps.

The audio graph is modelled as a set of connections between the stages
`Source`, `Analyser`, `Gain`, `StreamDestination` and `Speakers`. Nodes are
identified by numbers drawn from a counter. `Session.ChangeDeviceRestarts`
proves that a restart gets a new stream, context, source, analyser and gain
node. `Audible` says the monitor reaches a loudspeaker. That means either
`Gain → Speakers`, or `Gain → StreamDestination` with the hidden audio element
unmuted and playing.

The browser supplies several values. The model takes each as a parameter:

| value | parameter |
|---|---|
| `getUserMedia`'s answer | `Acquisition` |
| one animation frame (clock reading, frequency bins, samples) | `Frame` |
| slider value | `Option<real>` |
| whether `setSinkId` exists and whether it resolves | `bool` |
| `Math.sqrt` and `Math.log10` | the functions in `Meter.Transcendentals` |
| each bar's bin range (it comes from `Math.pow`/`Math.log10` of the sample rate) | `Spectrum.BinRange` |

Three behaviours of the code are easy to miss:
- **Silence.** Silence reads −240 dBFS, a finite value (`Meter.SilenceReadsMinus240`).
  It never reads −∞, because of the `1e-12` floor (app.js:72-75).
- **Bin indices.** Only the upper bin index is clamped, to `frequencyBinCount − 1`.
  The lower one is taken as computed (app.js:417-418).
- **Start while running.** `start` on a running session simply returns (app.js:293).
  It reports no error.

## Model

| member | source | states |
|---|---|---|
| Devices.Lower | app.js:247 | lower-casing keeps the length and maps every character |
| Devices.Includes | app.js:257 | `label.includes(t)` holds exactly when `t` occurs at some position |
| Devices.AnyIncluded | app.js:257 | `some(indicator => label.includes(indicator))` holds exactly when some indicator occurs |
| Devices.TrimIsEmpty | app.js:138 | `label.trim()` is empty exactly when every character is JavaScript whitespace |
| Devices.NatToString | app.js:138 | the `index + 1` of the fallback label is a non-empty string of decimal digits; `NatToStringValue` shows they denote the number |
| Devices.DigitsValue | app.js:138 | the number a string of decimal digits denotes, most significant digit first |
| Devices.NatToStringValue | app.js:138 | the digits written for `n` denote exactly `n`, so the fallback label shows the 1-based position |
| Devices.IsUsbDevice | app.js:244-258 | false for a missing device or a missing or empty label; otherwise true exactly when the lower-cased label contains one of the indicators |
| Devices.ShortLabelNotUsb | app.js:250-257 | a label shorter than three characters is never taken for USB (every indicator has at least three) |
| Devices.UsbExamples | app.js:244-258 | "USB Mic" is USB; "TV" and a device without a label are not |
| Devices.LabelCompare | app.js:116 | the label order answers −1, 0 or 1, and 0 exactly for equal labels |
| Devices.LabelCompareAntisymmetric | app.js:116 | swapping the labels negates the answer |
| Devices.LabelCompareTransitive | app.js:116 | the label order is transitive |
| Devices.LabelOrEmpty | app.js:116 | `a.label \|\| ""`: the label, or the empty string for a missing one; `LabelCompare` compares these |
| Devices.DeviceCompare | app.js:101-117 | USB before non-USB, then `default` before the rest, then by label |
| Devices.DeviceCompareByRank | app.js:101-117 | the comparator orders by a rank (USB and default, USB, default, other), then by label |
| Devices.DeviceCompareConsistent | app.js:101-117 | the input comparator is antisymmetric and transitive, so sorting by it is well defined |
| Devices.OutputCompareIgnoresUsb | app.js:188-204 | the output comparator as written never looks at `a`'s USB flag: it orders by default-ness, then label |
| Devices.OutputCompareAsWrittenConsistent | app.js:188-204 | the output comparator as written is still a consistent order |
| Devices.OutputExampleDevices | app.js:244-258 | "USB DAC" is USB and "TV" is not |
| Devices.OutputUsbNotFirstAsWritten | app.js:189-190 | as written, "USB DAC" sorts after "TV" among outputs |
| Devices.OutputUsbFirstCorrected | app.js:188-204 | with the flags taken from `a` and `b`, "USB DAC" sorts before "TV" |
| Devices.OutputCompareAsWritten | app.js:188-204 | the output comparator as written, with both USB flags computed from `b`; `OutputCompareIgnoresUsb` and `OutputUsbNotFirstAsWritten` state what that does |
| Devices.Comparator | app.js:101-117 | the comparator each picker sorts with: `DeviceCompare` for inputs and, corrected, for outputs; `DeviceCompareConsistent` makes both sorts well defined |
| Devices.Insert | app.js:101 | inserting one device adds exactly that device to the multiset |
| Devices.PrependSorted | app.js:101 | a device no greater than every element of a sorted list can be put in front of it |
| Devices.InsertSorted | app.js:101 | insertion into a list sorted by a consistent comparator keeps it sorted |
| Devices.SortDevices | app.js:101-117 | the sort returns a permutation of its input |
| Devices.SortDevicesSorted | app.js:101-117 | under a consistent comparator the sorted list is sorted |
| Devices.SortedUsbThenDefaultThenLabel | app.js:107-116 | in a list sorted by the input comparator, USB devices come first, then `default`, then ascending labels |
| Devices.Filter | app.js:98 | `filter(d => d.kind === kind)` keeps exactly the devices of that kind: each device occurs in the result as often as in the input when it has the kind, and not at all otherwise |
| Devices.Placeholder | app.js:123-129 | the single option of an empty picker: empty value and "No input devices found" / "No output devices found"; `PlaceholderNoMarker` and `PlaceholderCounted` are about it |
| Devices.HasLabel | app.js:138 | `input.label && input.label.trim()`: the label is present and not blank |
| Devices.Fallback | app.js:138 | `Input n` / `Output n` with `n` the 1-based position; `FallbackNoMarker` and `OptionTextParts` are about it |
| Devices.BaseLabel | app.js:138 | the device's own label when it is not blank, otherwise the fallback `Input n` / `Output n` |
| Devices.Decorate | app.js:141-146 | the `🔌 USB: ` prefix for a USB device, then `System Default — ` for `default`; `DecorateParts` states the result |
| Devices.OptionText | app.js:136-148 | the text of a device's option: the base label with its prefixes; `OptionTextParts` and `OptionTextUsbMarker` state what it contains |
| Devices.BuildOptions | app.js:133-150 | one option per device, in order, with the device id as value and the labelled text |
| Devices.RestoreSelection | app.js:152-154 | the previous value is kept exactly when it is non-empty and an option has it; otherwise, and always for an empty previous value, the first option is selected |
| Devices.Refresh | app.js:95-154 | an empty list gives the disabled placeholder and empty value; otherwise the picker is enabled and its options are one per device of the kind, built from some list that is a permutation of those devices sorted by the picker's comparator, with the previous selection kept exactly when it is still offered and otherwise the first option selected (`RestoreSelection` of the previous value over the built options) |
| Devices.IncludesAfterPrefix | app.js:141-148 | a prefix without the marker's first character does not change whether the marker occurs |
| Devices.NoStartCharNoInclude | app.js:141-148 | a text without the marker's first character does not contain the marker |
| Devices.MarkerInLabelMeansUsb | app.js:141-143 | a label that itself shows the marker is detected as USB |
| Devices.DecorateParts | app.js:141-146 | a non-empty label decorated is `System Default — ` (for `default`), then `🔌 USB: ` (for USB), then the label; it ends with the label, and shows the marker exactly when the device is USB or the label itself shows it |
| Devices.FallbackNoMarker | app.js:138 | the fallback `Input n` / `Output n` never shows the marker |
| Devices.OptionTextUsbMarker | app.js:141-148 | an option text contains `🔌 USB:` exactly when its device is USB |
| Devices.OptionTextParts | app.js:136-148 | an option text is the default prefix (exactly for `default`), the USB prefix (exactly for USB) and the base label; it ends with the device's label when that is not blank, and otherwise with `Input n` / `Output n` whose digits denote `index + 1` |
| Devices.RefreshedUsbOptionsFirst | app.js:100-150 | in a refilled picker every option that shows the marker precedes every option that does not |
| Devices.UsbTextCountPrefix | app.js:271-274 | counting marker texts over any prefix of the options counts the USB devices of that prefix |
| Devices.UsbTextCountMatchesDevices | app.js:271-274 | counting options whose text has the marker counts exactly the USB devices |
| Devices.UsbTextCount | app.js:271-274 | the number of options whose text contains `🔌 USB:`; `CountOptions` computes it and `UsbTextCountMatchesDevices` relates it to the devices |
| Devices.UsbDeviceCount | app.js:244-258 | the number of devices the heuristic marks as USB |
| Devices.UsbDeviceCountAppend | app.js:244-258 | the USB count of a concatenation is the sum of the parts' counts |
| Devices.UsbDeviceCountPermutation | app.js:101-117 | two lists with the same devices (as multisets) have the same USB count, so sorting does not change it |
| Devices.CountOptions | app.js:271-274 | the counting loop returns the number of options and the number showing the marker, no more than the total |
| Devices.UpdateDeviceCount | app.js:261-286 | both pickers are counted; a missing output picker counts 0 and 0 |
| Devices.PlaceholderNoMarker | app.js:123-129 | the placeholder text does not show the marker |
| Devices.PlaceholderCounted | app.js:123-129 | an empty picker holds one option and counts no USB device |
| Devices.RefreshUsbCount | app.js:133-150 | a refilled picker's USB count is the number of USB devices of its kind in the enumeration, whatever order the sort puts them in |
| Decibels.Max | app.js:429 | `Math.max` is an upper bound of both arguments and is one of them |
| Decibels.Fall | app.js:428 | lowering −∞ stays −∞; lowering by a non-negative amount never raises |
| Decibels.PeakHold | app.js:427-429 | the new held value is at least the current reading and the fallen old one, and is one of the two; with time running forward it is at most the larger of current and held; from −∞ it is the current reading |
| Decibels.PeakHoldExample | app.js:427-429 | a −40 dB hold falling at 24 dB/s for half a second under a −60 dB reading is −52 dB; from −∞ it is the reading |
| Decibels.HoldAfter | app.js:427-429 | the held value after a run of frames: one peak-hold step of `fall` per reading; the three lemmas below bound it |
| Decibels.Decay | app.js:428 | a value lowered by `fall` once per frame, `k` times |
| Decibels.DecayIsFall | app.js:428 | `k` falls of `fall` dB are one fall of `fall · k` dB |
| Decibels.HoldNotBelowDecayedReading | app.js:427-429 | over a run of frames, a reading seen `k` frames ago is held at no less than itself lowered by `k` falls, which is `fall · k` dB by `DecayIsFall` |
| Decibels.HoldAtMostMax | app.js:427-429 | over a run of frames the held value never exceeds the largest reading or starting value |
| Decibels.HoldOfSilence | app.js:427-429 | from −∞, frames reading −∞ keep the held value at −∞ |
| Decibels.Clamp | app.js:77-79 | `clamp(value, min, max)` stays in `[min, max]`, is the value inside it and the nearer bound outside it (and `max` when `max < min`) |
| Decibels.ClampMonotone | app.js:77-79 | clamping keeps the order of its inputs |
| Decibels.Position | app.js:431-436 | the clamped normalisation lies in [0, 1], is 0 at or below the floor (and for −∞), 1 at or above the top, and the linear fraction in between |
| Decibels.PositionMonotone | app.js:431-436 | a louder reading never sits lower |
| Spectrum.LastBin | app.js:418 | the upper bin index is at most `frequencyBinCount − 1` and at most the computed one, and is one of them |
| Spectrum.Add | app.js:423 | `sum += freqData[k]` is −∞ exactly when either side is, and the real sum otherwise |
| Spectrum.Sum | app.js:421-423 | the running sum is −∞ exactly when some bin is |
| Spectrum.SumBounds | app.js:421-423 | bins between `lo` and `hi` sum to between `n·lo` and `n·hi` |
| Spectrum.DivideWithin | app.js:424 | dividing such a sum by the count gives a value between `lo` and `hi` |
| Spectrum.MeanOfFinite | app.js:421-424 | the mean of finite bins between `lo` and `hi` lies between them |
| Spectrum.Mean | app.js:421-424 | `sum / count` over the bins, and `minDecibels` for an empty range; `MeanBetweenMinAndMax` bounds it |
| Spectrum.MeanBetweenMinAndMax | app.js:421-424 | the mean lies between the quietest and the loudest bin, and is −∞ exactly when some bin is |
| Spectrum.BarLevelBounds | app.js:417-424 | a bar's level lies between its quietest and loudest bin; an empty range gives `minDecibels` (−90) |
| Spectrum.SingleBinBar | app.js:417-424 | a bar over a single bin shows that bin |
| Spectrum.BarLevel | app.js:417-424 | a bar's level: the mean of the bins from the floored lower index to the clamped upper one; `BarLevelBounds` and `SingleBinBar` state its range |
| Spectrum.AverageBins | app.js:420-424 | the averaging loop computes the bar level |
| Spectrum.BarLevels | app.js:410-424 | one level per bar, each that bar's `BarLevel` |
| Spectrum.HoldAll | app.js:426-429 | each bar's held peak after one frame: the peak-hold rule at 24 dB/s on that bar; `HoldAllAboveBars` bounds it |
| Spectrum.HoldAllAboveBars | app.js:426-429 | every held peak is at least its bar; from −∞ it is the bar; with time running forward it is at most the larger of bar and old peak |
| Spectrum.UpdateBars | app.js:410-429 | the bar loop returns every bar's level and updates each held peak in place by the 24 dB/s peak-hold rule |
| Spectrum.BarHeight | app.js:435 | `clamp(magnitude, 0, 1) * height`: the drawn bar height; `PeakLineNotBelowBar` bounds it |
| Spectrum.PeakLineY | app.js:436 | `height * (1 - clamp(peakMagnitude, 0, 1))`: where the peak line is drawn; `PeakLineNotBelowBar` relates it to the bar |
| Spectrum.BarGeometry | app.js:435-436 | two fractions of [0, 1] drawn on a canvas stay on it, and the one measured from the top lies no lower than the other's top |
| Spectrum.PeakLineNotBelowBar | app.js:431-436 | bar height and peak line stay on the canvas, and a peak held at or above its bar is drawn no lower than the bar's top |
| Meter.SumSquares | app.js:471-477 | the sum of squares is never negative |
| Meter.SilenceSumsToZero | app.js:471-477 | a silent frame sums to zero |
| Meter.PeakAbs | app.js:472-477 | the peak magnitude is non-negative, at least every sample's magnitude, and either 0 or some sample's magnitude |
| Meter.SumSquaresStep | app.js:475 | one more sample adds its square to the sum |
| Meter.PeakAbsStep | app.js:476 | one more sample raises the peak exactly when its magnitude is larger |
| Meter.MeasureLevels | app.js:471-477 | the RMS/peak loop computes the sum of squares and the peak magnitude |
| Meter.FloorAt | app.js:73 | `Math.max(value, 1e-12)` is at least the floor, and is the value from the floor up |
| Meter.LinearToDbFS | app.js:72-75 | `20 · log10(max(value, 1e-12))`; the three lemmas below state its floor and order |
| Meter.SilenceReadsAtFloor | app.js:72-75 | every value at or below the floor reads the same as silence, `20·log10(1e-12)` |
| Meter.SilenceReadsMinus240 | app.js:72-75 | silence reads −240 dBFS, not −∞ |
| Meter.LinearToDbFSMonotone | app.js:72-75 | a louder signal never reads lower |
| Meter.FrameLevels | app.js:478-480 | the frame's RMS `sqrt(sumSquares / n)` and peak magnitude, both in dBFS; `MeasureFrame` computes it |
| Meter.VuPeakHold | app.js:484-486 | the meter's held peak is finite and at least the frame's peak, and with time running forward it is the shared peak-hold rule at 18 dB/s |
| Meter.MeterX | app.js:500-503 | `dbToX`: a reading placed on the meter lies within it, at its left end at or below −60 dB and at its right end at or above 0 dB |
| Meter.MeterXMonotone | app.js:500-503 | a louder reading is placed no further left |
| Meter.Elapsed | app.js:401 | the elapsed seconds are non-negative exactly when the clock did not run backwards |
| Meter.FrameTick | app.js:400-402 | one clock reading per frame: the same step for bars and meter, and `lastFrameTime` moves to `now` |
| Meter.TickAsWritten | app.js:483-484 | the clock as written: the spectrum steps from `lastFrameTime` (app.js:400-402) and then sets it, and the meter steps from that new value; `MeterHoldAsWrittenFallsByDrawTime` states the result |
| Meter.MeterHoldAsWrittenFallsByDrawTime | app.js:483-486 | as written, the meter's step is the time between the spectrum's and the meter's clock readings of one frame, the same for every previous frame time; the marker falls by at most 18 dB per second of that drawing time, and not at all when the two readings coincide |
| Meter.MeterHoldExample | app.js:483-486 | frames a second apart with 2 ms of drawing between the two clock readings: a −10 dB hold under a −60 dB peak falls to −10.036 dB as written, and to −28 dB under one clock step per frame |
| Meter.MeterHoldFalls | app.js:483-486 | with one reading per frame the marker falls 18 dB per second until it meets the current peak, and strictly falls when time passes |
| Session.Unheld | app.js:355 | `new Float32Array(barCount).fill(-Infinity)`: 96 bars, none held |
| Session.Initial | app.js:24-42 | the page loads not running, with monitoring on |
| Session.ConsistentRenderable | app.js:542-547 | a consistent session can be rendered |
| Session.StopSpec | app.js:626-657 | `stop`: not running, no frame pending, every node released and disconnected, monitoring off; `StopClears`, `StopIdempotent` and `StopKeepsConsistent` are about it |
| Session.StopClears | app.js:626-657 | after `stop` nothing runs, no frame is pending, monitoring is off and not heard, every node is released, the graph is empty; the audio element and device in use stay |
| Session.StopIdempotent | app.js:626-657 | stopping twice is stopping once |
| Session.StopKeepsConsistent | app.js:626-657 | `stop` keeps the session invariant |
| Session.Unplug | app.js:604 | `monitorGainNode.disconnect()` removes exactly the connections out of the gain node |
| Session.Audible | app.js:604-621 | the monitor reaches a loudspeaker: the gain node feeds the speakers, or the stream destination played by the unmuted, playing audio element |
| Session.MonitorRoute | app.js:595-624 | `setMonitoringEnabled` with the `setSinkId` route reconnected: the flag is set and, with a graph, the gain node is re-routed and the audio element played or paused; `MonitorRouteAudibleIffEnabled` states the result |
| Session.MonitorRouteAsWritten | app.js:595-624 | `setMonitoringEnabled` as written, which cuts the gain node from the stream destination and reconnects only the speakers; `StartSilentAsWritten` states the result |
| Session.MonitorRouteAudibleIffEnabled | app.js:595-624 | with a graph, the monitor is heard exactly when it is enabled, and the flag is set |
| Session.MonitorRouteKeepsConsistent | app.js:595-624 | switching the monitor keeps the session invariant |
| Session.ToggleSpec | app.js:716-720 | the monitor button switches monitoring to the opposite of its flag; `ToggleTwice` is about it |
| Session.ToggleTwice | app.js:716-720 | pressing the monitor button twice restores the flag and whether the monitor is heard |
| Session.GainSetting | app.js:325 | `Number(monitorGainSlider?.value \|\| 0.6)`: the slider's value, or 0.6 without one |
| Session.SetGainSpec | app.js:722-729 | the slider sets only a live gain node's gain and changes nothing else |
| Session.SetGainKeepsConsistent | app.js:722-729 | the slider keeps the session invariant |
| Session.SelectOutputSpec | app.js:583-593 | choosing an output changes only the audio element's sink, only to a non-empty, accepted choice, and with an element and `setSinkId` such a choice is always taken |
| Session.SelectOutputKeepsConsistent | app.js:583-593 | choosing an output keeps the session invariant |
| Session.Drawn | app.js:400-486 | what one frame draws: every bar's level, the held bar peaks, the meter's readouts and held peak, on one clock reading |
| Session.RenderSpec | app.js:542-547 | `render`: nothing when not running; otherwise the held peaks and clock of `Drawn` and the next frame requested; `RenderIdle`, `RenderHolds` and `RenderKeepsConsistent` are about it |
| Session.RenderIdle | app.js:542-543 | rendering a session that does not run changes nothing |
| Session.RenderHolds | app.js:542-547 | a frame keeps every held bar peak at or above its bar and the meter's hold at or above the frame's peak, moves the clock, and requests the next frame |
| Session.RenderKeepsConsistent | app.js:542-547 | rendering makes a wired session consistent again |
| Session.DeviceIdInUse | app.js:551 | `deviceId \|\| "default"` is never empty and is the given id when there is one |
| Session.LaunchEdges | app.js:327-346 | the source feeds the analyser and the gain node; the gain node feeds the stream destination exactly with `setSinkId`, and never the speakers at first |
| Session.AddNodes | app.js:308-325 | the stream, context, source, analyser and gain node `start` creates, all new, the gain from the slider |
| Session.Connect | app.js:327-346 | the connections `start` makes and the hidden audio element, created when `setSinkId` exists and there is none yet |
| Session.ConnectGraph | app.js:308-346 | the nodes, then their connections |
| Session.OpenDrawing | app.js:355-357 | the peak buffer with nothing held, the clock read and the meter hold cleared; the device in use and the running flag are set as at app.js:551-552 |
| Session.Launch | app.js:308-552 | everything a granted `start` sets up before it switches monitoring on |
| Session.StartSpec | app.js:292-568 | `start`: nothing while running, `stop` when refused, otherwise the graph, monitoring on and the first frame; the four lemmas below are about it |
| Session.StartWhileRunning | app.js:293 | `start` while running changes nothing |
| Session.StartRefused | app.js:563-567 | a refused microphone ends in `stop`: not running, monitoring off |
| Session.StartGranted | app.js:292-562 | a granted start runs, with monitoring on and heard, a frame requested, the chosen device recorded, a new gain node at the slider's gain, every bar's peak at its first level, and the meter holding the first frame's peak |
| Session.StartKeepsConsistent | app.js:292-568 | `start` keeps the session invariant on every path |
| Session.StartSilentAsWritten | app.js:604-611 | as written, a start through `setSinkId` leaves monitoring enabled but not heard; the corrected routing is heard |
| Session.Chosen | app.js:703 | `deviceSelect.value \|\| undefined` is undefined exactly for the empty value |
| Session.ChangeDeviceSpec | app.js:700-707 | the input picker's handler: while running, `stop` and then `start` on the chosen device; nothing otherwise |
| Session.ChangeDeviceRestarts | app.js:700-707 | changing the device of an idle session does nothing; a running one that is granted runs again, monitoring on, with a new stream, context, source, analyser and gain node, for the chosen device; a refused one ends stopped |
| Session.Visualizer.constructor | app.js:24-42 | the new session is the initial state and consistent |
| Session.Visualizer.Stop | app.js:626-657 | `stop` updates the fields as the stop function says and keeps the invariant |
| Session.Visualizer.SetMonitoringEnabled | app.js:595-624 | the fields change as the corrected routing function says; the peak buffer is untouched |
| Session.Visualizer.ToggleMonitor | app.js:716-720 | the button handler toggles through the routing function and keeps the invariant |
| Session.Visualizer.SetMonitorGain | app.js:722-729 | the slider handler follows the gain function and keeps the invariant |
| Session.Visualizer.SelectOutput | app.js:709-714 | the output handler follows the selection function and keeps the invariant |
| Session.Visualizer.Render | app.js:542-547 | one frame updates the fields and the peak array as the render function says, and answers what it drew, or nothing when not running |
| Session.Visualizer.MeasureFrame | app.js:478-480 | the meter's readouts are the RMS and the peak of the frame in dBFS |
| Session.Visualizer.Start | app.js:292-568 | `start` follows the start function on every path and keeps the invariant |
| Session.Visualizer.CreateNodes | app.js:308-325 | the stream, context, source, analyser and gain node are new nodes, the gain at the slider's value |
| Session.Visualizer.ConnectNodes | app.js:327-346 | the launch connections are made and the hidden audio element exists when `setSinkId` does |
| Session.Visualizer.PrepareDrawing | app.js:355-357 | a fresh peak buffer with nothing held, the clock read, the meter hold cleared, then the device recorded and the session running (app.js:551-552) |
| Session.Visualizer.ChangeDevice | app.js:700-707 | the input picker's handler follows the device-change function and keeps the invariant |

## Left out

- DOM, canvas and styling are not modelled. This covers grid lines, gradients, glow, labels, segment colours, `resizeCanvasToDisplaySize`, `metaInfo`, `statusText`, `getSelectedDeviceLabel`, `updatePlaybackStatus` and `formatDb`/`toFixed`. Only the geometry of bars and peak lines, and the meter's `dbToX` (`Meter.MeterX`), are modelled.
- The Web Audio analyser is not modelled: its FFT, its smoothing (`smoothingTimeConstant`, app.js:321) and Float32 rounding. Its two buffers arrive as a `Frame` value, and `Frame` lengths are the only thing taken from the analyser settings.
- `Math.sqrt` and `Math.log10` are given functions. The properties that depend on them assume only what each lemma's `requires` states.
- Spectrum.UpdateBars: numbers are exact reals; JavaScript's doubles are not modelled. Each store into the Float32Array `barPeaksDb` (app.js:355, app.js:429) rounds the held peak to 32 bits, and app.js:432 reads the rounded value back. So `Spectrum.HoldAllAboveBars` and `Session.RenderHolds` (the held peak is at or above its bar) hold of the program only up to one float32 rounding: a bar of −50 + 2⁻¹⁹ dB can be held as −50 dB.
- Session.RenderHolds: states the held peaks over exact reals; see the Spectrum.UpdateBars line for the float32 rounding.
- Spectrum.BinRange: the bin range of each bar is given. Computing it from the sample rate with `Math.pow`/`Math.log10` is floating point.
- Devices.LabelCompare: `localeCompare` is modelled as code-point order. Locale collation is a browser table.
- Devices.Lower: `toLowerCase` is modelled for ASCII letters only.
- Devices.SortDevices: `Array.prototype.sort` is modelled as an insertion sort, specified by its result (a permutation sorted by the comparator). The engine's algorithm is not modelled. No lemma states the order of devices the comparator ranks equal; the insertion sort keeps them in enumeration order, as the stable `Array.prototype.sort` of ES2019 does. This matters before permission is granted, when every label is empty and the `Input n` numbering follows that order.
- Devices.RestoreSelection: a fresh `<select>` is assumed to show its first option when the previous value is not restored. That rule is the browser's.
- Devices.Refresh: `enumerateDevices` is modelled as its answer, a list passed in. Its failure path only logs to the console.
- Devices.Refresh: the output picker is modelled with the corrected comparator `DeviceCompare`, not with `OutputCompareAsWritten` of app.js:188-204. The comparator as written is kept beside it, and the Findings table shows where the two differ.
- Devices.Refresh: the options are built from some permutation sorted by the comparator; the contract does not state the order of devices it ranks equal (see the Devices.SortDevices line).
- Devices.NatToString: that the digits denote `index + 1` is stated by the lemma `NatToStringValue`, not by the function's own contract.
- Decibels.HoldNotBelowDecayedReading: the decay is stated as `k` single falls (`Decay`). `DecayIsFall` equates it with one fall of `fall · k` dB.
- Concurrency is not modelled. Asynchronous overlaps are out: a second `start` while `getUserMedia` is pending, an enumeration racing a `devicechange`, `play()` rejected by autoplay policy. Every handler runs to completion.
- Calls made only for their effect outside the model are left out: `ensurePermissions`, the refresh and USB-refresh buttons (their extra enumeration only logs), the `devicechange` listener, `init`, the `resize` listener, and all console logging.
- The audio element's `srcObject`, `autoplay` and `playsInline` are not part of `AudioElement`; only `muted`, playing and `sinkId` are.
- Meter.SumSquares: only `sumSquares >= 0` is proved, and that silence sums to zero. That a zero sum means every sample is silent is not proved: it needs strict positivity of a square, which the nonlinear arithmetic here does not settle.
- Meter.FrameLevels: with `timeData` of length 0 the source divides by zero. The model requires a non-empty frame, as the analyser always fills `fftSize` samples.
- Session.MonitorRoute: monitoring is modelled with the `setSinkId` route reconnected, not as written at app.js:604-611. So `Session.StartGranted`'s "heard" and `Session.MonitorRouteAudibleIffEnabled` hold of the corrected routing. `Session.MonitorRouteAsWritten` and `Session.StartSilentAsWritten` state the behaviour as written.
- Session.Visualizer.Render: a frame is drawn with one clock reading for bars and meter (`Meter.FrameTick`), not with the two readings of app.js:400-402 and app.js:483-484. So `Session.Drawn`, `Session.RenderSpec` and `Session.RenderHolds` describe the corrected clock. `Meter.TickAsWritten` and `Meter.MeterHoldAsWrittenFallsByDrawTime` state the behaviour as written.
- Session.Visualizer.Render: `requestAnimationFrame` is modelled as a counter of requests; the browser calling `render` back is a further call of the method.

## Findings

| source | as written | input that shows it | evidently intended | confidence | as-written member | corrected member |
|---|---|---|---|---|---|---|
| app.js:189-190 | the output comparator computes both USB flags from `b` (`aIsUsb = isUsbDevice(b)`), so it never puts a USB output first | outputs "USB DAC" and "TV" (neither `default`): "USB DAC" sorts after "TV" | `aIsUsb = isUsbDevice(a)`, as in the input comparator | high (not executed) | Devices.OutputUsbNotFirstAsWritten | Devices.OutputUsbFirstCorrected |
| app.js:483-486 | the meter measures `deltaSec` from `lastFrameTime`, which the spectrum has just set to its own `now`, so the step is only the spectrum's drawing time and the marker falls far slower than 18 dB/s | hold −10 dB, peak −60 dB, frames 1000 ms apart, the meter reading the clock 2 ms after the spectrum: the hold falls only to −10.036 dB | one clock step per frame for both views: the hold falls to −28 dB | high (not executed) | Meter.MeterHoldAsWrittenFallsByDrawTime | Meter.MeterHoldFalls |
| app.js:604-611 | `setMonitoringEnabled(true)` disconnects the gain node from the stream destination the audio element plays and never reconnects it, so monitoring through `setSinkId` is silent while shown as on | any granted `start` in a browser with `setSinkId` | reconnect `monitorGainNode` to the stream destination when enabling | medium (not executed) | Session.StartSilentAsWritten | Session.MonitorRouteAudibleIffEnabled |

The model uses the corrected form of each finding. `Devices.Comparator` gives
both pickers `DeviceCompare`. `Session.Visualizer.Render` uses one
`Meter.FrameTick` per frame. `Session.MonitorRoute` reconnects the gain node.
The forms as written are `Devices.OutputCompareAsWritten`, `Meter.TickAsWritten`
and `Session.MonitorRouteAsWritten`.
