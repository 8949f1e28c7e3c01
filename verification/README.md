# Vacuum leak-test backend, modelled in Dafny

This project models the decision core of the C++/Qt vacuum leak-test backend
(`vacuum_demo/cpp_backend`). A Flutter front end calls it through a C API once per
sub-step with a running `counter`. The backend asks the serial vacuum gauge for a raw
code, converts it to kPa through a calibration table, and runs a four-phase machine:

- warm-up (counter ≤ 14);
- calibration (15..19), where the start pressure is averaged and corrected by an offset;
- active test (up to `(duration + 7) * 2 + 5`), where a five-sample moving average of
  the stop pressure is compared with the start pressure;
- timeout, where the test always stops.

A separate quick check (`start`/`step`) compares single readings with a target pressure.

Modules:

- `Calibration`: the raw-code converter `convertRawToPressure` (clamp, then
  piecewise-linear interpolation over a five-point table).
- `Device`: the five-byte request frame, the decoding of a reply (first byte only), and
  `VacuumDevice::measureOnce` as a class that remembers the last pressure it read.
- `MovingAverage`: the five-slot windows as values (`Insert`, `Feed`, `Window`,
  `LastFive`).
- `Decision`: the constants, the phase boundaries, and the pure transition `Decide` /
  `Evaluate` over a value `Session` of the engine's state, with the phase lemmas.
- `Backend`: `class Engine`. It holds the two windows as `array<real>` fields of length 5
  and the counts and pressures as fields. Its methods update them in place.
  `MeasureAndDecide` is proved to produce exactly the state and outputs of
  `Decision.Evaluate`.
- `Api`: the C entry points: the `;`-joined port list and its buffer protocol, packing
  into `VacuumMeasureResult`, and the debug measurements.

Modelling choices:

- Pressures are `real`.
- The serial link is made of inputs. `connected` stands for `isConnected()`. A reading
  is `Some(kPa)`, or `None` when the measurement failed.
- The C out-parameters of `measureAndDecide` are references, so a parameter the code
  does not write keeps the caller's value. The model passes those values in as
  `prior: Outputs`. The C API always passes zeros (`NoOutputs`).
- `stcntPtr` and `spcntPtr` point at `stcnt` and `spcnt`. So `Averaging` returns the new
  count and the caller stores it into `stcnt` or `spcnt`.

A failed acquisition on a connected engine is not a no-op: `measureAndDecide`
(vacuum_backend.cpp:166-254) stores the device's result flag and then runs the phase
logic anyway. On a failed read the device leaves `outPressure` as the caller had it, so in
the calibration and test phases that stale value is fed into the windows (warm-up
ignores the sample). Only the not-connected case returns with
nothing changed. `Decision.Evaluate` models this, and `Decision.FailedReadingStillFeeds`
states it.

## Model

| member | source | states |
|---|---|---|
| Calibration.CalWellFormed | vacuum_demo/cpp_backend/vacuum_device.cpp:189-199 | the table's codes strictly increase and its pressures never increase; every pressure is in [0, 100] |
| Calibration.Clamp | vacuum_demo/cpp_backend/vacuum_device.cpp:186 | the result lies in [lo, hi]; it equals v inside the range, lo below it and hi above it |
| Calibration.Lerp | vacuum_demo/cpp_backend/vacuum_device.cpp:229-230 | the interpolated point (adc, r) lies on the straight line through the segment's two end points |
| Calibration.LerpEnds | vacuum_demo/cpp_backend/vacuum_device.cpp:229-230 | interpolation gives y0 at x0 and y1 at x1, and stays between them on the segment |
| Calibration.LerpMonotone | vacuum_demo/cpp_backend/vacuum_device.cpp:229-230 | on a segment whose pressure falls, a larger code never gives a larger pressure |
| Calibration.Search | vacuum_demo/cpp_backend/vacuum_device.cpp:213-234 | an in-range code always finds a segment, so the NaN fallback cannot be reached; the result lies between the last and the current tabulated pressure |
| Calibration.Convert | vacuum_demo/cpp_backend/vacuum_device.cpp:182-235 | every integer input converts to a pressure in [0, 100] |
| Calibration.ConvertClamps | vacuum_demo/cpp_backend/vacuum_device.cpp:186-210 | codes ≤ 0 give 100 kPa, as code 0 does; codes ≥ 255 give 0 kPa, as code 255 does |
| Calibration.SearchFindsSegment | vacuum_demo/cpp_backend/vacuum_device.cpp:213-231 | the first matching segment gives the same value as any segment holding the code, so the shared breakpoints agree |
| Calibration.ConvertOnSegment | vacuum_demo/cpp_backend/vacuum_device.cpp:213-231 | for a code in segment j the result is y0 + (adc−x0)/(x1−x0)·(y1−y0) over that segment |
| Calibration.ConvertAtBreakpoints | vacuum_demo/cpp_backend/vacuum_device.cpp:189-199 | codes 0, 48, 95, 125 and 255 give exactly 100, 80, 65, 50 and 0 kPa |
| Calibration.SegmentOf | vacuum_demo/cpp_backend/vacuum_device.cpp:213-220 | every code from 0 to 255 lies in some table segment |
| Calibration.ConvertMonotone | vacuum_demo/cpp_backend/vacuum_device.cpp:182-231 | the converter never increases as the code increases, over all integers |
| Device.BuildCommand | vacuum_demo/cpp_backend/vacuum_device.cpp:86-110 | always 5 bytes with a NUL last and four non-NUL tag bytes; the tag is VAC1 exactly for channel 1, VAC2 exactly for channel 2, STP3 exactly for every other channel |
| Device.BuildCommandInjective | vacuum_demo/cpp_backend/vacuum_device.cpp:86-110 | two channels get the same frame exactly when they are equal or are both "other" channels |
| Device.DecodeReply | vacuum_demo/cpp_backend/vacuum_device.cpp:250-257 | an empty reply is a failure; otherwise the result is a pressure in [0, 100] |
| Device.DecodeFirstByteOnly | vacuum_demo/cpp_backend/vacuum_device.cpp:256-257 | bytes after the first do not change the decoded pressure |
| Device.Device.constructor | vacuum_demo/cpp_backend/vacuum_device.h:40 | a new device's last pressure is 0 |
| Device.Device.MeasureOnce | vacuum_demo/cpp_backend/vacuum_device.cpp:239-263 | the frame is sent only when the port is open; it succeeds exactly when the port is open, the send succeeds and bytes arrive; on success the output and lastPressure are the decoded reply; on failure the caller's value and lastPressure stay as they were |
| MovingAverage.Window | vacuum_demo/cpp_backend/vacuum_backend.h:117-121 | a buffer holds at most MAXAVG samples |
| MovingAverage.LastFive | vacuum_demo/cpp_backend/vacuum_backend.cpp:268-276 | the result is the suffix of length min(\|s\|, 5) |
| MovingAverage.Insert | vacuum_demo/cpp_backend/vacuum_backend.cpp:258-277 | the buffer keeps MAXAVG slots; a count at most MAXAVG stays in 1..MAXAVG, so it never goes past 5 |
| MovingAverage.InsertKeepsLastFive | vacuum_demo/cpp_backend/vacuum_backend.cpp:258-277 | after an insertion the window is the last five of the old window plus the new sample, and the returned value is the mean of that window, which is not empty |
| MovingAverage.Feed | vacuum_demo/cpp_backend/vacuum_backend.cpp:258-277 | repeated insertions keep a buffer of MAXAVG slots |
| MovingAverage.LastFiveAppend | vacuum_demo/cpp_backend/vacuum_backend.cpp:268-276 | trimming to five before appending loses nothing that trimming afterwards would keep |
| MovingAverage.FeedKeepsLastFive | vacuum_demo/cpp_backend/vacuum_backend.cpp:258-277 | from count 0, with any stale slots, after feeding xs the count is min(\|xs\|, 5) and the window is exactly the last five samples of xs |
| MovingAverage.FeedMean | vacuum_demo/cpp_backend/vacuum_backend.cpp:262-276 | the returned mean is sum/k of all samples while k ≤ 5, and afterwards sum/5 of the newest five |
| MovingAverage.SumBounds | vacuum_demo/cpp_backend/vacuum_backend.cpp:262-275 | n samples in [lo, hi] sum to a value in [n·lo, n·hi] |
| MovingAverage.MeanBounds | vacuum_demo/cpp_backend/vacuum_backend.cpp:258-277 | a mean of samples in [lo, hi] lies in [lo, hi] |
| MovingAverage.MeanOfConstant | vacuum_demo/cpp_backend/vacuum_backend.cpp:258-277 | the mean of equal samples is that sample |
| Decision.Duration | vacuum_demo/cpp_backend/vacuum_backend.cpp:33-42 | the duration is one of 0, 30, 120, 180 or 300, and it is positive exactly for modes 2 to 5 |
| Decision.DurationTable | vacuum_demo/cpp_backend/vacuum_backend.cpp:33-42 | 1→0, 2→300, 3→180, 4→120, 5→30, and every other mode →0 |
| Decision.PhaseOf | vacuum_demo/cpp_backend/vacuum_backend.cpp:169-234 | warm-up is exactly counter ≤ 14; calibration is 15..19; the active test is 20..2·duration+19; timeout is everything after that |
| Decision.PhaseBoundaries | vacuum_demo/cpp_backend/vacuum_backend.h:12-22 | each boundary counter (14, 19, the test end) belongs to the lower phase, and the next counter belongs to the next phase; with duration 0 the active test is empty |
| Decision.Offset | vacuum_demo/cpp_backend/vacuum_backend.cpp:198-203 | the offset is max(0, startMean − 65) |
| Decision.InTolerance | vacuum_demo/cpp_backend/vacuum_backend.cpp:220-226 | the verdict holds exactly when the stop pressure is at least 62 and \|diff\| is at most 1; a pass also means the start pressure (stop − diff) is at least 61 |
| Decision.QuickPassMonotone | vacuum_demo/cpp_backend/vacuum_backend.cpp:81-82 | a higher reading never turns a quick-check pass into a fail; QuickPass is the verdict p ≥ target − 3 |
| Decision.Decide | vacuum_demo/cpp_backend/vacuum_backend.cpp:169-253 | the session stays well formed (buffers of 5, counts ≤ 5) and the reported pressure is the sample used |
| Decision.Evaluate | vacuum_demo/cpp_backend/vacuum_backend.cpp:159-256 | ok holds exactly when connected and a reading arrived; when not connected, the state and every output are unchanged; on success the reported pressure is the reading |
| Decision.WarmupResets | vacuum_demo/cpp_backend/vacuum_backend.cpp:169-183 | in warm-up: pass, no stop, diff 0; offset, start and stop pressure 0; both counts 0; pSt and pSp keep the caller's values; at counter 1 both buffers are zero-filled, otherwise their slots are kept |
| Decision.CalibrationPhase | vacuum_demo/cpp_backend/vacuum_backend.cpp:191-204 | in calibration the sample enters both windows; pSt and pSp are the unadjusted means; offset ≥ 0 and ≥ startMean − 65; startpress + offset = startMean, so startpress ≤ 65 and equals startMean when startMean ≤ 65; diff 0, pass, no stop; the offset is exactly Offset(startMean) = max(0, startMean − 65) |
| Decision.TestPhases | vacuum_demo/cpp_backend/vacuum_backend.cpp:212-247 | after calibration only the stop window is fed and the start window and stored pressures are kept; pSt = startpress, pSp = stopMean − offset, diff = pSp − startpress; pass exactly when pSp ≥ 62 and −1 ≤ diff ≤ 1; up to the test end stop = ¬pass, after it stop always holds |
| Decision.OffsetExample | vacuum_demo/cpp_backend/vacuum_backend.cpp:198-204 | a start mean of 70 gives offset 5 and startpress 65 |
| Decision.LeakExample | vacuum_demo/cpp_backend/vacuum_backend.cpp:214-226 | start 65 and a stop mean of 63 in the active test give diff −2, a fail, and a stop |
| Decision.TimeoutExample | vacuum_demo/cpp_backend/vacuum_backend.cpp:235-247 | in tolerance after the test end, the verdict is pass and the test still stops |
| Decision.FailedReadingStillFeeds | vacuum_demo/cpp_backend/vacuum_backend.cpp:166-197 | a connected engine with a failed reading returns ok false but still inserts the caller's stale pressure into the start window; SampleOf is the sample choice it exercises |
| Decision.Run | vacuum_demo/cpp_backend/vacuum_backend.cpp:159-256 | consecutive calls keep the session well formed |
| Decision.RunCalibrationFeeds | vacuum_demo/cpp_backend/vacuum_backend.cpp:191-204 | over the calibration counters both buffers evolve exactly as repeated averaging does; offset and startpress come from the last start mean; stoppress is the last stop mean |
| Decision.CalibrationFreezesStart | vacuum_demo/cpp_backend/vacuum_backend.cpp:169-204 | counter 14 followed by five calibration samples leaves both windows holding exactly those samples; startpress = min(mean, 65), offset = max(0, mean − 65), stoppress = mean |
| Decision.CalibrationScenario | vacuum_demo/cpp_backend/vacuum_backend.cpp:191-204 | five calibration samples of 70 kPa give offset 5, startpress 65 and stoppress 70 |
| Backend.Engine.constructor | vacuum_demo/cpp_backend/vacuum_backend.h:100-126 | the engine starts with zero-filled windows, counts 0, pressures 0, duration 0, steps 0, last pressure 0 and lastPass true, and with the enumerated ports |
| Backend.Engine.SetTimeMode | vacuum_demo/cpp_backend/vacuum_backend.cpp:29-44 | the configured duration follows the mode table and the elapsed steps are reset to 0; nothing else changes |
| Backend.Engine.SetPressureMode | vacuum_demo/cpp_backend/vacuum_backend.cpp:50-54 | the target pressure becomes kpa; nothing else changes |
| Backend.Engine.Start | vacuum_demo/cpp_backend/vacuum_backend.cpp:56-63 | steps 0, last pressure 0, lastPass true; nothing else changes |
| Backend.Engine.Step | vacuum_demo/cpp_backend/vacuum_backend.cpp:65-87 | with no connection or no reading, no field changes; otherwise lastPressure is the reading, steps grow by exactly 1, and lastPass is reading ≥ target − 3; QuickPass is that verdict, and LastPassFlag reports it to the C API as 1 or 0 (vacuum_backend_api.cpp:51-54) |
| Backend.Engine.RefreshPorts | vacuum_demo/cpp_backend/vacuum_backend.cpp:89-93 | the port list is replaced by the enumerated ports |
| Backend.Engine.EveryPortNamed | vacuum_demo/cpp_backend/vacuum_backend.cpp:95-105 | every index below portCount() has a name, which is that port's entry, so the null check in the port-list loop (vacuum_backend_api.cpp:81-82) never skips a port; PortCount and PortName are the accessors it speaks about |
| Backend.Engine.Averaging | vacuum_demo/cpp_backend/vacuum_backend.cpp:258-277 | the buffer, the count and the returned mean after the in-place loops are exactly those of MovingAverage.Insert on the old buffer |
| Backend.Engine.ClearAveraging | vacuum_demo/cpp_backend/vacuum_backend.cpp:281-288 | both buffers are all zeros and the returned count is 0 |
| Backend.Engine.MeasureAndDecide | vacuum_demo/cpp_backend/vacuum_backend.cpp:159-256 | the new windows, counts and pressures, ok and all six outputs are exactly Decision.Evaluate of the old state; only the session fields and the two buffers change, and the counts stay ≤ 5 |
| Api.Joined | vacuum_demo/cpp_backend/vacuum_backend_api.cpp:79-86 | the built string is empty exactly when every name is empty, so a list of only empty names writes just the NUL while the returned count is not 0 |
| Api.JoinedIsJoin | vacuum_demo/cpp_backend/vacuum_backend_api.cpp:79-86 | the built string is the names joined by ';' once leading empty names are dropped |
| Api.JoinedNonEmptyNames | vacuum_demo/cpp_backend/vacuum_backend_api.cpp:79-86 | with non-empty names, the built string is the names in order separated by ';', with no leading or trailing separator |
| Api.SplitJoin | vacuum_demo/cpp_backend/vacuum_backend_api.cpp:79-86 | cutting the reference join at every ';' gives back the names when none holds ';' |
| Api.SplitJoined | vacuum_demo/cpp_backend/vacuum_backend_api.cpp:79-86 | cutting the string at every ';' gives back exactly the port names, when there is at least one and none is empty or holds ';' |
| Api.ListPorts | vacuum_demo/cpp_backend/vacuum_backend_api.cpp:72-99 | the ports are refreshed. Size ≤ 0: returns length+1 and writes nothing. Buffer too small: returns −1 and writes nothing. Otherwise: the joined string and a NUL fill the front of the buffer, the rest is untouched, and the port count is returned; for an empty port list that is just the NUL and 0; PortCount and PortName are the engine accessors the loop calls |
| Api.PackLossless | vacuum_demo/cpp_backend/vacuum_backend_api.cpp:163-169 | the packed record determines ok and all six outputs; Pack copies the outputs into VacuumMeasureResult and Flag turns pass, stop and ok into 1 or 0 |
| Api.MeasureDecide | vacuum_demo/cpp_backend/vacuum_backend_api.cpp:142-172 | the engine's new state is Evaluate's with zeroed out-parameters, and the record is its ok and outputs packed; Pack and Flag do the packing |
| Api.DebugMeasureOnce2 | vacuum_demo/cpp_backend/vacuum_backend_api.cpp:109-139 | the engine moves as measureAndDecide does; the result is the reading on success and −1 otherwise |
| Api.DebugMeasureOnce | vacuum_demo/cpp_backend/vacuum_backend_api.cpp:101-107 | for a non-negative reading, the result is negative exactly when the engine is not connected, so −1 cannot be mistaken for a pressure |
| Api.DebugSentinelUnambiguous | vacuum_demo/cpp_backend/vacuum_backend_api.cpp:101-107 | for a decoded device reply, the debug measurement is −1 exactly when not connected or nothing arrived, and otherwise a pressure in [0, 100] |

## Left out

- Serial I/O: port enumeration, `autoConnect`, `connectPort`, `disconnectPort`,
  `sendCommand`, `receiveBytes` (vacuum_device.cpp:16-151). Also `connectToPort`,
  `disconnect` and `isConnected` (vacuum_backend.cpp:107-142). These are Qt
  serial-port plumbing. Connection state, send success, received bytes and the
  enumerated port list are inputs instead.
- The `channel` argument of `measureAndDecide` and `vacuum_measure_decide`. It only
  selects the device frame, which `Device.BuildCommand` models. The engine receives the
  device's answer on that channel as the `reading` input.
- Floating point: pressures are exact reals. `float`/`double` rounding and the `qQNaN`
  value of the interpolation fallback are not modelled. The fallback is shown to be
  unreachable.
- The `outRange` bookkeeping in `convertRawToPressure`. It starts at 0, so every branch
  that it guards is dead.
- The commented-out older converter (vacuum_device.cpp:154-180).
- The `instance()` singleton, the destructor and `vacuum_init`. The model works on one
  explicitly constructed `Engine`.
- Logging (`qDebug`/`qWarning`) and the `EXPORT`/`extern "C"` binding macros.
- One-line forwarders in the C API that add nothing beyond the member they call:
  `vacuum_set_time_mode`, `vacuum_set_pressure_mode`, `vacuum_start`, `vacuum_step`,
  `vacuum_get_last_pressure`, `vacuum_connect`, `vacuum_disconnect`,
  `vacuum_is_connected`.
- The fields `flag`, `comflag`, `rcvdflag` and `timeMode_`: no logic reads them. The
  constants `MAXPRESS`, `hrate` and `MAXTIME` are declared in `Decision` but no decision
  uses them.
- Backend.Engine.Step: `elapsedSteps` is an unbounded integer, so the overflow of the C
  `int` after 2^31 − 1 steps is not modelled.
- Api.ListPorts: sizes are unbounded integers, so the `int` cast of a string longer than
  2^31 − 2 bytes is not modelled. Port names are taken to contain no NUL byte; `joined +=
  name` would stop copying at one. A null `buffer` with a positive size is not modelled.
  Each character of a port name stands for one byte, so port names are taken to be ASCII.
  The byte size of a multi-byte UTF-8 name is not modelled, although `joined.size()` counts
  bytes (vacuum_backend_api.cpp:90-97). A non-ASCII name can therefore need a larger buffer
  in the source than in the model.
