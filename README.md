# Smart Server Room Guardian: threshold logic, in Dafny

This project models the severity logic of the Smart Server Room Guardian
and the state kept around it, in its three variants:

- the simulator page (`dashboard_simulator.jsx`), which classifies a
  temperature/humidity/gas reading as normal, warning or critical, clamps
  it for display, colours each figure, raises an alert flag and keeps a
  30-point history (module `Simulator`, state in the class
  `Simulator.Dashboard`);
- the ESP32 firmware's `loop()` (`src/main.cpp`), which skips a tick on a
  NaN from the DHT22 and otherwise drives the LED and the buzzer from a
  two-state danger rule (module `Firmware`, state in `Firmware.Board`);
- the live dashboard (`dashboard/src/App.jsx`), which takes each MQTT
  message's reading and status, sets the alert flag from the status and
  keeps a 30-point history scaled for its bar chart (module
  `LiveDashboard`, state in `LiveDashboard.Dashboard`).

Shared pieces live in `Display` (colour tiers, JavaScript's clamp, floor and
round over the reals), `HistoryWindow` (the `slice(-n)` window and both ways
the pages update it) and `Wrappers` (`Option`, standing for a NaN read or a
message that did not decode). `Consistency` relates the variants'
thresholds to each other.

Each file keeps its own constants as written: gas above 2000 is danger for
the firmware but only a warning for the simulator; the live dashboard
colours temperature red above 30 degrees, the simulator above 40.
Temperature and humidity are `real`, gas is `int`. Every state change is a
method of a class whose fields are the page's or the board's state; the
rules are functions, and the properties are lemmas about them.

Hysteresis, exponential smoothing of gas, actuators stepping toward a
setpoint and timed heartbeat alerts do not occur in these three files, so
the model has none of them: single strict threshold comparisons, no
smoothing, no actuator behaviour. A failed read does not keep the previous
value per channel either: the firmware skips the whole tick, and the model
does the same. The
two dashboards handle the alert flag differently: the simulator's Reset
button clears it, while the live dashboard's Reset Alarm button only sends
a command, so there the flag always equals "status is not normal".

## Model

| member | source | states |
|---|---|---|
| Display.Clamp | dashboard_simulator.jsx:35-36 | `Math.max(lo, Math.min(hi, x))` lies in [lo, hi], is x itself inside the range and the nearer end outside it |
| Display.ClampInt | dashboard_simulator.jsx:37 | the same clamp on the integer gas value |
| Display.Min | dashboard/src/App.jsx:162 | `Math.min` is at most both arguments and equals one of them |
| Display.Floor | dashboard_simulator.jsx:212 | `Math.floor(x)` is the integer n with n <= x < n + 1 |
| Display.Round | dashboard/src/App.jsx:157 | `Math.round(x)` is the integer n with n - 0.5 <= x < n + 0.5 (halves go up) |
| HistoryWindow.Last | dashboard/src/App.jsx:57 | `slice(-n)` keeps min(n, length) elements and they are the suffix of the input |
| HistoryWindow.PushThenTrim29 | dashboard_simulator.jsx:45-50 | the new history has one point more than the old while that had fewer than 30, else exactly 30, the new point last, the rest a suffix of the old history in the old order, and all old points kept while there were fewer than 30 |
| HistoryWindow.AppendThenTrim30 | dashboard/src/App.jsx:51-58 | the same facts (exact length, new point last, older points a suffix in order, nothing dropped below 30) for the append-then-trim formulation |
| HistoryWindow.Feed | dashboard/src/App.jsx:51-58 | after a stream of messages the window stays within 30 points and ends with the latest point |
| HistoryWindow.UpdatesAgree | dashboard_simulator.jsx:45 | trimming to 29 then appending equals appending then trimming to 30, so both pages keep the same window |
| HistoryWindow.LastOfAppendedLast | dashboard/src/App.jsx:51-57 | trimming before an append does not change what the next trim keeps |
| HistoryWindow.FeedKeepsLastThirty | dashboard/src/App.jsx:51-58 | after any stream of messages the history is exactly the last 30 points of old history plus stream, oldest first |
| Simulator.Classify | dashboard_simulator.jsx:27-32 | the status is normal exactly when temp <= 35, 30 <= humi <= 70 and gas <= 2000 |
| Simulator.ClassifyCases | dashboard_simulator.jsx:27-32 | critical iff temp > 40 or gas > 3000; warning iff not critical and (temp > 35, humi < 30, humi > 70 or gas > 2000); normal iff temp <= 35, 30 <= humi <= 70 and gas <= 2000 |
| Simulator.ClassifyBoundaries | dashboard_simulator.jsx:28-30 | strict comparisons: temp 40 and gas 3000 are not critical, temp 35 and gas 2000 are normal, humidity 30 and 70 count as inside the band |
| Simulator.ClassifyMonotone | dashboard_simulator.jsx:27-32 | higher temperature, higher gas or humidity further outside [30, 70] never lowers the status |
| Simulator.ClampTemp | dashboard_simulator.jsx:35 | the displayed temperature lies in [20, 50] and equals the reading inside that range |
| Simulator.ClampHumi | dashboard_simulator.jsx:36 | the displayed humidity lies in [20, 90] and equals the reading inside that range |
| Simulator.ClampGas | dashboard_simulator.jsx:37 | the displayed gas lies in [0, 4095] and equals the reading inside that range |
| Simulator.TempColour | dashboard_simulator.jsx:80-84 | red iff temp > 40, yellow iff 35 < temp <= 40, green iff temp <= 35 |
| Simulator.GasColour | dashboard_simulator.jsx:91-95 | red iff gas > 3000, yellow iff 2000 < gas <= 3000, green iff gas <= 2000 |
| Simulator.StatusColour | dashboard_simulator.jsx:56-62 | the banner colour ranks exactly as the status does (green, yellow, red) |
| Simulator.StatusEmoji | dashboard_simulator.jsx:64-70 | the red circle iff critical, the warning sign iff warning, the check mark iff normal |
| Simulator.StatusText | dashboard_simulator.jsx:72-78 | "CRITICAL!" iff critical, "WARNING" iff warning, "NORMAL" iff normal |
| Simulator.HumiColour | dashboard_simulator.jsx:86-89 | the humidity figure is never red, and yellow exactly when humidity is below 30 or above 70 |
| Simulator.StatusIsWorstChannel | dashboard_simulator.jsx:80-95 | the status colour equals the worst of the temperature, humidity and gas colours |
| Simulator.ClampKeepsColours | dashboard_simulator.jsx:35-37 | clamping leaves each channel's colour unchanged |
| Simulator.BannerIdentifiesStatus | dashboard_simulator.jsx:56-78 | banner colour, emoji and text each determine the status, and the colour ranks as the status does |
| Simulator.NewData | dashboard_simulator.jsx:34-40 | the stored values are the clamped reading, the sample is in the display ranges, carries the raw reading's status, and its figure colours agree with that status |
| Simulator.PointOf | dashboard_simulator.jsx:45-50 | over the reals the point's tooltip gives back the sample's gas, and a sample in the display ranges gives a point whose bars stay within 100 percent |
| Simulator.TooltipGas | dashboard_simulator.jsx:212 | the tooltip is the floor of the stored gas times 41 |
| Simulator.TempBarHeight | dashboard_simulator.jsx:206 | the bar is uncapped, yet a temperature in the display range [20, 50] draws a bar between 40 and 100 percent |
| Simulator.GasBarHeight | dashboard_simulator.jsx:211 | the bar is uncapped, yet a stored value whose gas is in the display range [0, 4095] draws a bar from 0 up to below 100 percent |
| Simulator.TooltipRecoversGas | dashboard_simulator.jsx:212 | over the reals, flooring the stored gas/41 times 41 gives back the sample's gas |
| Simulator.PushKeepsBars | dashboard_simulator.jsx:45-50 | pushing a point with in-range bars onto a window whose bars are all in range keeps every bar in range |
| Simulator.PointBarsInRange | dashboard_simulator.jsx:206-211 | the uncapped history bars of a clamped sample stay within 0..100 percent (temperature at least 40) |
| Simulator.Dashboard.constructor | dashboard_simulator.jsx:4-14 | initial data 25.0 / 50.0 / 500 / normal, no alert, empty history |
| Simulator.Dashboard.Tick | dashboard_simulator.jsx:42-50 | data becomes the clamped sample, the flag becomes status != normal, the history gets the new point; the invariant (ranges, colours agree, flag only when not normal, at most 30 points, bars within 100 percent) is kept |
| Simulator.Dashboard.ResetAlert | dashboard_simulator.jsx:236-238 | clears the flag; data and history unchanged; invariant kept |
| Firmware.IsDanger | src/main.cpp:67 | line 67's rule as written; gas 2000 with 40.0 degrees exactly is not danger, gas 2001 is danger at any temperature |
| Firmware.Step | src/main.cpp:57-76 | a NaN temperature or humidity leaves the outputs as they were; otherwise LED is HIGH iff danger, and LED HIGH iff buzzer duty is nonzero (128) |
| Firmware.DangerBoundaries | src/main.cpp:67 | gas 2000 and 40.0 degrees exactly are normal, gas 2001 or 40.5 degrees are danger |
| Firmware.HumidityIgnored | src/main.cpp:67 | changing only humidity never changes the outputs of a usable tick |
| Firmware.LastUsable | src/main.cpp:57-61 | None exactly when every reading has a NaN; otherwise a usable reading of the sequence after which only unusable readings follow |
| Firmware.Run | src/main.cpp:48-79 | with no ticks the outputs are the starting ones; a usable last reading decides the outputs whatever came before |
| Firmware.RunFollowsLastUsable | src/main.cpp:48-79 | after any sequence of ticks the outputs are those chosen for the last usable reading, or the starting outputs if every read failed |
| Firmware.RunKeepsAgreement | src/main.cpp:67-76 | LED HIGH iff duty nonzero holds after any sequence of ticks |
| Firmware.Board.constructor | src/main.cpp:23-31 | LED LOW and buzzer silent after setup: the reset state of the pin and the PWM channel, since setup writes neither |
| Firmware.Board.Loop | src/main.cpp:48-79 | the early return on NaN keeps LED and duty; otherwise LED = danger and duty = 128 or 0 accordingly; LED and buzzer agree afterwards |
| LiveDashboard.StatusColour | dashboard/src/App.jsx:81 | red iff status is "critical", yellow iff "warning", green for every other string |
| LiveDashboard.RaisesAlert | dashboard/src/App.jsx:48 | a status that leaves the flag down always shows a green banner |
| LiveDashboard.AlertAndBanner | dashboard/src/App.jsx:48 | red or yellow banner implies the flag is raised; an unknown status string raises the flag under a green banner; "normal" is green without alert |
| LiveDashboard.TempColour | dashboard/src/App.jsx:115 | red iff temp > 30, yellow iff 26 < temp <= 30, green iff temp <= 26 |
| LiveDashboard.TempColourMonotone | dashboard/src/App.jsx:115 | a warmer reading never shows a less severe colour |
| LiveDashboard.PointOf | dashboard/src/App.jsx:55 | over the reals the point's tooltip gives back the message's gas, and up to gas 5000 its gas bar is gas/50 percent |
| LiveDashboard.TooltipGas | dashboard/src/App.jsx:157 | the tooltip is the integer nearest to the stored gas times 50 |
| LiveDashboard.TooltipRecoversGas | dashboard/src/App.jsx:157 | over the reals, rounding the stored gas/50 times 50 gives back the integer gas |
| LiveDashboard.TempBarHeight | dashboard/src/App.jsx:162 | at most 100, twice the temperature up to 50 degrees, full from 50 degrees |
| LiveDashboard.GasBarHeight | dashboard/src/App.jsx:167 | at most 100, equal to the stored value up to 100, full from 100 |
| LiveDashboard.GasBarScale | dashboard/src/App.jsx:55 | the gas bar is gas/50 percent up to 5000 and full from 5000 |
| LiveDashboard.Dashboard.constructor | dashboard/src/App.jsx:15-22 | initial data 0 / 0 / 0 / normal, no alert, empty history |
| LiveDashboard.Dashboard.OnMessage | dashboard/src/App.jsx:34-64 | other topics and undecodable messages change nothing; a data message replaces the reading, sets the flag to status != "normal" and appends to the 30-point history; the flag always equals status != "normal" |
| Consistency.FirmwareBetweenWarningAndCritical | src/main.cpp:67 | every simulator-critical reading is firmware danger, and every firmware danger is at least a simulator warning |
| Consistency.GasWarningIsFirmwareDanger | dashboard_simulator.jsx:28-31 | gas 2500 is firmware danger but only a simulator warning |
| Consistency.FirmwareHeatShowsRed | dashboard/src/App.jsx:115 | a temperature that alarms the firmware is red on both dashboards |

## Left out

- Random sensor simulation (`Math.random`, `Math.sin`, wall-clock seconds) in the simulator: the raw reading is an input of `Tick`.
- Timers and delays (`setInterval`, `delay`): one method call per tick.
- Wi-Fi association, MQTT connect/subscribe/publish and the Reset Alarm, fan and dehumidifier commands the live dashboard publishes; none of them changes the state modelled here.
- `JSON.parse`, `parseFloat`, `parseInt`: a message arrives already decoded, or as `None` when decoding threw; a NaN produced by `parseFloat`/`parseInt` is not modelled.
- Hardware drivers (DHT22, `analogRead`, `digitalWrite`, `ledcSetup`/`ledcWrite`, Serial output): only the chosen LED level and duty are fields.
- Rendering: JSX, CSS class strings beyond the colour they encode, the gauge widths, `toFixed`, `toLocaleTimeString` (history points carry no time), the `alert()` popup.
- The fan and dehumidifier toggles: they only flip a boolean shown on a button.
- IEEE floating point: temperature, humidity and the scaled gas are exact reals, so the tooltip round-trips hold over the reals only.
- Simulator.TooltipRecoversGas: holds over the reals only. In IEEE double arithmetic `47 / 41 * 41` is 46.99999999999999, so the page's tooltip shows 46 for gas 47; 285 of the gas values 0..4095 show one less than stored this way. The model does not capture this.
- LiveDashboard.TooltipRecoversGas: stated over the reals only; rounding to the nearest integer absorbs a small double-precision error here, but the model does not state that.
- Firmware.Board.constructor: `setup()` never writes the LED or the buzzer; the model takes LOW and duty 0 as the power-on state of the output pin and the PWM channel. That start is what makes the LED and the buzzer agree from the first tick (the requires of `Firmware.RunKeepsAgreement`).
