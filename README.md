# Arduino Server Watch Dog — a Dafny model of the monitor step

Arduino Server Watch Dog is a pair of Tkinter dashboards. Each polls a serial-connected
Arduino for lines such as `Temperature: 23.5°C` and appends each reading to a rolling series.
In ArduinoServerWatchDog.py, a reading that crosses its threshold pushes a notification, at
most once per metric every 300 seconds. AppData.py's alert code for temperature and noise is
meant to do the same, but as written it raises UnboundLocalError before any push (see
"## Findings"), and it has no humidity threshold. Both scripts share the same small
sequential core, and this project models it:

- `read_arduino_data` does one tick:
  - it looks for each metric's label in the line;
  - it takes the second `:`-separated field, removes the unit and trims it;
  - it parses the value with `float` or `int` and appends it;
  - it applies the threshold-and-cooldown rule.
- The first lines of `update_graph` bound the series.
- The module-level variables are initialised at start-up.

`ArduinoServerWatchDog.py` has four metrics: temperature, humidity, noise level and MQ-2 gas.
`AppData.py` is the Portuguese variant with three: temperature, humidity and noise level.

Modules:

- `Wrappers`: `Option`.
- `PyStr`: Python's `sub in s`, `s.split(sep)`, `s.replace(pat, "")` and `s.strip()` on
  strings, with lemmas that say what each computes: where a substring occurs, which field
  `split` yields, what `replace` leaves of a value followed by its unit, and what `strip`
  leaves of text padded with whitespace.
- `Host`: what the model does not compute itself, passed in as a `Runtime` value:
  - the `float()` and `int()` parsers, as partial functions;
  - `str()` of a number;
  - `time.ctime()`.

  It also holds the exceptions that escape a tick, and the field extraction
  `data.split(":")[1].replace(unit, "").strip()` followed by a parse. Lemmas give the
  parse that the extraction performs on a line of the form `<label>: <value><unit>`.
- `Policy`: the thresholds and the 300 s cooldown.
  - `Evaluate` is one evaluation of the alert rule.
  - `Replay` is an independent statement of the rule over a sequence of readings.
- `WatchDog`: the model of `ArduinoServerWatchDog.py`.
  - `ScanLine` gives what each block finds in a line.
  - There is one step function per block, plus `ReadLine`, the `update_graph` trim `Trim`,
    `TickOn`, a call on what the blocks find in a line, and `Tick`, one whole call.
  - The `Monitor` class holds the script's module-level variables as fields. Its methods
    update them in place, and each method is proved to produce the state that the functions
    above specify.
- `WatchDogProps`: lemmas about `WatchDog`.
- `AppData` and `AppDataProps`: the same for `AppData.py`, modelled as written, together with
  `Intended*` functions that state what its alert code evidently means (see Findings).

An uncaught Python exception is modelled as an outcome, not excluded by a precondition. Each
such outcome names the exception and carries the state as far as the tick got:

- IndexError from `split(":")[1]` on a line without `:`;
- IndexError from `pop(0)` on an empty list;
- UnboundLocalError in `AppData.py`.

## Model

| member | source | states |
|---|---|---|
| PyStr.Contains | ArduinoServerWatchDog.py:81 | the empty string is in every line, and a label longer than the line is never in it |
| PyStr.ContainsSpec | ArduinoServerWatchDog.py:81 | `label in data` holds exactly when the label occurs in the line at some index |
| PyStr.AbsentChar | ArduinoServerWatchDog.py:81 | a label with a character the line lacks is not in the line |
| PyStr.Split | ArduinoServerWatchDog.py:83 | `split(":")` yields at least one piece; no piece contains ':', and the pieces joined with ':' give back the line |
| PyStr.SecondField | ArduinoServerWatchDog.py:83 | `split(":")[1]` exists exactly when the line contains ':' (otherwise IndexError) |
| PyStr.SecondFieldSpec | ArduinoServerWatchDog.py:83 | the field taken is the text after the FIRST ':' up to the next ':' or the end of the line, and it contains no ':' |
| PyStr.SecondFieldOf | ArduinoServerWatchDog.py:83 | for a line `a:b` where neither `a` nor `b` holds ':', `split(":")[1]` is exactly `b` |
| PyStr.RemoveAll | ArduinoServerWatchDog.py:98 | `replace(unit, "")` never lengthens the text and introduces no character that was not in it |
| PyStr.RemoveAllSpec | ArduinoServerWatchDog.py:98 | text without the unit is unchanged; a one-character unit such as "%" is entirely gone from the result |
| PyStr.RemoveAllAfter | ArduinoServerWatchDog.py:83 | for a unit that cannot overlap itself (such as "°C"), text free of the unit followed by the unit and a rest keeps the text and removes the unit: `(x + unit + y).replace(unit, "")` is `x + y.replace(unit, "")` |
| PyStr.Strip | ArduinoServerWatchDog.py:77 | `strip()` yields the empty string exactly when the line is all whitespace |
| PyStr.StripSpec | ArduinoServerWatchDog.py:77 | `strip()` keeps a slice of the line that neither starts nor ends with whitespace; only whitespace is cut off on either side |
| PyStr.StripPadded | ArduinoServerWatchDog.py:83 | text that neither starts nor ends with whitespace, padded with whitespace on either side, strips back to itself |
| Host.FloatField | ArduinoServerWatchDog.py:83 | the extraction fails with IndexError exactly when the line has no ':' |
| Host.IntField | ArduinoServerWatchDog.py:115 | the same for the `int` extraction of noise and gas |
| Host.FloatFieldOf | ArduinoServerWatchDog.py:83 | on a line `<label>: <value><unit>` whose label and value hold no ':', whose unit cannot overlap itself and does not occur in the value, and whose value has no surrounding whitespace, the extraction parses exactly the value, and a value `float` rejects is skipped |
| Host.IntFieldOf | ArduinoServerWatchDog.py:115 | on a line `<label>: <value>` the `int` extraction parses exactly the value |
| Host.FloatReading | ArduinoServerWatchDog.py:81-83 | a block runs exactly when its label is in the line, and raises exactly when the label is present and ':' is not |
| Host.IntReading | ArduinoServerWatchDog.py:113-115 | the same for the integer blocks |
| Policy.Evaluate | ArduinoServerWatchDog.py:86-91 | at most one notification, sent exactly when the reading is past its threshold and at least 300 s have passed since the last SENT alert; it then records now and the text stamped with the time, otherwise the bookkeeping is unchanged |
| Policy.Replay | ArduinoServerWatchDog.py:86-90 | at most one alert per reading, and each alert comes at the time of a reading that was past its threshold |
| Policy.ReplaySpacing | ArduinoServerWatchDog.py:87-90 | over any readings at any times, the first alert comes at least 300 s after the last recorded one, and successive alerts are at least 300 s apart |
| WatchDog.StoredGas | ArduinoServerWatchDog.py:131-135 | a gas reading of 0 is stored as 0.1 and every other reading unchanged; the remap never moves a reading across the 200 threshold |
| WatchDog.ScanLine | ArduinoServerWatchDog.py:81-130 | each block runs exactly when its label is in the line; all blocks split the same line, so either every labelled block finds no ':' field or none does |
| WatchDog.TemperatureStep | ArduinoServerWatchDog.py:81-93 | the block changes only the temperature series and alert; a line without the label changes nothing; it raises only when the label is present and ':' is not, and then changes nothing; it appends at most one value and sends only temperature alerts |
| WatchDog.HumidityStep | ArduinoServerWatchDog.py:96-110 | the same frame, raise and title guarantees for humidity |
| WatchDog.NoiseStep | ArduinoServerWatchDog.py:113-125 | the same for noise |
| WatchDog.Mq2Step | ArduinoServerWatchDog.py:128-142 | the same for MQ-2 gas |
| WatchDog.ReadLine | ArduinoServerWatchDog.py:80-142 | the four blocks in order, an escaping exception ending the line: only IndexError escapes, and at most one temperature is appended |
| WatchDog.Trim | ArduinoServerWatchDog.py:36-41 | nothing is sent, only IndexError escapes, and one temperature leaves exactly when there were more than 100 |
| WatchDog.TickOn | ArduinoServerWatchDog.py:80-144 | the blocks, then the trim when nothing escaped: only IndexError escapes, and at most one temperature is added |
| WatchDog.Tick | ArduinoServerWatchDog.py:76-144 | no waiting line changes nothing; otherwise the stripped line is processed as `TickOn` says, with the same guarantees |
| WatchDog.Monitor.constructor | ArduinoServerWatchDog.py:16-32 | empty lists, alert times 0, empty alert texts |
| WatchDog.Monitor.UpdateGraph | ArduinoServerWatchDog.py:35-41 | the in-place pops produce exactly the state and exception of `Trim` |
| WatchDog.Monitor.ReadArduinoData | ArduinoServerWatchDog.py:74-146 | one call updates the fields, sends the notifications and lets escape the exception that `Tick` gives for the line and the old state |
| WatchDog.Monitor.ProcessTemperature | ArduinoServerWatchDog.py:81-93 | the in-place temperature block matches `TemperatureStep` |
| WatchDog.Monitor.ProcessHumidity | ArduinoServerWatchDog.py:96-110 | the in-place humidity block matches `HumidityStep` |
| WatchDog.Monitor.ProcessNoiseLevel | ArduinoServerWatchDog.py:113-125 | the in-place noise block matches `NoiseStep` |
| WatchDog.Monitor.ProcessGasLevel | ArduinoServerWatchDog.py:128-142 | the in-place gas block matches `Mq2Step` |
| WatchDogProps.MetricsIndependent | ArduinoServerWatchDog.py:81-142 | after a line, each metric's series and alert are what its own block makes of the state before the line, whatever else the line holds; notifications come in block order; an exception leaves everything as it was |
| WatchDogProps.TemperatureReading | ArduinoServerWatchDog.py:81-93 | a parsed temperature is appended and alerts iff it is at least 40 and the cooldown has run out, setting the time and text; otherwise the alert is unchanged; an unparsable value changes nothing; no ':' raises IndexError with nothing changed |
| WatchDogProps.HumidityReading | ArduinoServerWatchDog.py:96-110 | the same for humidity, which alerts strictly below 30 or above 70 |
| WatchDogProps.NoiseReading | ArduinoServerWatchDog.py:113-125 | the same for noise, which alerts at 200 or more |
| WatchDogProps.GasReading | ArduinoServerWatchDog.py:128-142 | the same for gas: 0 is stored as 0.1, and it alerts at 200 or more with its own cooldown |
| WatchDogProps.OneLineSeveralSeries | ArduinoServerWatchDog.py:81-99 | one line with both labels and both values parsing feeds both the temperature and the humidity series |
| WatchDogProps.HumidityBoundsExclusive | ArduinoServerWatchDog.py:102-107 | humidity of exactly 30 or 70 never alerts; 29.9 and 70.1 do once the cooldown allows |
| WatchDogProps.FirstAlertFromStart | ArduinoServerWatchDog.py:25-32 | with the initial alert times of 0, the first reading past its threshold at any time from 300 on sends that metric's notification and records the time, for every metric |
| WatchDogProps.TemperatureCooldownScenario | ArduinoServerWatchDog.py:86-91 | 39.9 then 40.0 alert once, at 40.0; 45.0 within 300 s of that alert does not alert; 45.0 after 300 s alerts again |
| WatchDogProps.LacksLabels | ArduinoServerWatchDog.py:81-128 | a line lacking a character of each of three labels holds none of them |
| WatchDogProps.CelsiusSelfDisjoint | ArduinoServerWatchDog.py:83 | the unit "°C" cannot overlap itself |
| WatchDogProps.TemperatureLineLabels | ArduinoServerWatchDog.py:81-128 | the line "Temperature: 41°C" holds the temperature label and no other |
| WatchDogProps.TemperatureLineField | ArduinoServerWatchDog.py:83 | its temperature field parses as 41 where `float("41")` is 41 |
| WatchDogProps.TemperatureLineTick | ArduinoServerWatchDog.py:77-144 | the received line "Temperature: 41°C" is read as a temperature of 41 and nothing else, so a tick on it is the tick on that reading |
| WatchDogProps.NoiseLineLabels | ArduinoServerWatchDog.py:81-128 | the line "Noise Level: 250" holds the noise label and no other |
| WatchDogProps.NoiseLineField | ArduinoServerWatchDog.py:115 | its noise field parses as 250 where `int("250")` is 250 |
| WatchDogProps.NoiseLineTick | ArduinoServerWatchDog.py:77-144 | the received line "Noise Level: 250" is read as a noise level of 250 and nothing else |
| WatchDogProps.HumidityLineLabels | ArduinoServerWatchDog.py:81-128 | the line "Humidity: 50%" holds the humidity label and no other |
| WatchDogProps.HumidityLineField | ArduinoServerWatchDog.py:98 | its humidity field parses as 50 where `float("50")` is 50 |
| WatchDogProps.HumidityLineTick | ArduinoServerWatchDog.py:77-144 | the received line "Humidity: 50%" is read as a humidity of 50 and nothing else |
| WatchDogProps.ThreeReadingScenario | ArduinoServerWatchDog.py:81-125 | from the start, readings of temperature 41, noise 250 and humidity 50 a second apart send exactly two alerts (temperature, then noise), feed three series, and leave the humidity and gas bookkeeping unset |
| WatchDogProps.ThreeLineScenario | ArduinoServerWatchDog.py:76-144 | the same from the received text lines "Temperature: 41°C", "Noise Level: 250" and "Humidity: 50%", where `float` and `int` parse the three numbers as written |
| WatchDogProps.MetricStepAlert | ArduinoServerWatchDog.py:86-140 | each of the four blocks sends exactly when its value is past its threshold and that metric's cooldown has run out, and records the time exactly then |
| WatchDogProps.MetricFollowsReplay | ArduinoServerWatchDog.py:86-140 | over any sequence of lines and times, each metric's block alerts exactly at the times the stand-alone cooldown rule `Replay` gives |
| WatchDogProps.MetricAlertsSpaced | ArduinoServerWatchDog.py:86-140 | so the alerts of each metric are at least 300 s after the previous one and at least 300 s apart from each other |
| WatchDogProps.ReadLineAlerted | ArduinoServerWatchDog.py:81-142 | within one line, the alerts of a metric are exactly those its own block sends, and its bookkeeping is what its own block makes of it |
| WatchDogProps.DistinctTitles | ArduinoServerWatchDog.py:88-137 | the four alert titles differ from each other |
| WatchDogProps.TickMetricAlert | ArduinoServerWatchDog.py:76-144 | a whole call on a received line alerts for a metric exactly when the line holds that metric's value past its threshold and its cooldown has run out, and records the time exactly then; the trim leaves it alone |
| WatchDogProps.TickFollowsReplay | ArduinoServerWatchDog.py:76-146 | over successive calls on any received lines at any times, polling stopping at an escaped exception, each metric alerts exactly at the times the stand-alone cooldown rule `Replay` gives for the lines holding its value past the threshold |
| WatchDogProps.TickAlertsSpaced | ArduinoServerWatchDog.py:76-146 | over successive calls on any received lines at any times, polling stopping at an escaped exception, each metric alerts at least 300 s after its last recorded alert and at least 300 s apart |
| WatchDogProps.TrimEvictsOldest | ArduinoServerWatchDog.py:36-41 | up to 100 temperatures nothing changes. Past 100, exactly the oldest element of each series is dropped (of the gas series only when it is not empty) and the order is kept. An empty humidity series raises IndexError with only the temperature popped; an empty noise series raises it with the temperature and humidity popped; everything else stays as it was |
| WatchDogProps.TrimOverflowByOne | ArduinoServerWatchDog.py:36-39 | 101 temperatures become readings 2 to 101, in order |
| WatchDogProps.TickKeepsBound | ArduinoServerWatchDog.py:81-144 | a line appends at most one temperature and is followed by the trim, so at most 100 temperatures stay at most 100 after any tick |
| AppData.ScanLine | AppData.py:96-122 | each of the three blocks runs exactly when its label is in the line; either every labelled block finds no ':' field or none does |
| AppData.TemperatureStep | AppData.py:96-109 | only the temperature series changes; nothing is ever sent; IndexError exactly for a labelled line without ':'; otherwise the only exception is UnboundLocalError on `last_alert_time_temp`, raised after exactly one value was appended; at most one value is appended |
| AppData.HumidityStep | AppData.py:112-117 | only the humidity series changes, nothing is sent, and the only exception is IndexError for a labelled line without ':' |
| AppData.NoiseStep | AppData.py:120-133 | only the noise series changes; nothing is sent; IndexError exactly for a labelled line without ':'; otherwise the only exception is UnboundLocalError on `last_alert_time_noise` |
| AppData.Chain | AppData.py:95-133 | the blocks run in order and an escaping exception ends the line: a first block that raises is the whole outcome, and its notifications come first |
| AppData.ReadLine | AppData.py:95-133 | nothing is sent and the alert variables stay as they are; only IndexError and the UnboundLocalError of `last_alert_time_temp` or `last_alert_time_noise` escape; at most one temperature is appended |
| AppData.Trim | AppData.py:44-47 | nothing is sent, the alert variables stay, only IndexError escapes, and one temperature leaves exactly when there were more than 100 |
| AppData.ThenTrim | AppData.py:136 | a line that raised skips the trim; the trim adds no notification and raises at most IndexError |
| AppData.Tick | AppData.py:91-136 | no waiting line changes nothing; otherwise only the exceptions of `ReadLine` escape, and at most one temperature is added |
| AppData.Run | AppData.py:141 | no lines change nothing; a run stops on an exception of a tick, which is one of the same three |
| AppData.IntendedTemperatureStep | AppData.py:101-106 | with the variables global, only the temperature series and alert variables change; the block raises only IndexError, only without ':', and sends only temperature alerts |
| AppData.IntendedNoiseStep | AppData.py:125-130 | the same for noise |
| AppData.IntendedTick | AppData.py:91-136 | with the variables global, no waiting line changes nothing, only IndexError escapes, and at most one temperature is added |
| AppData.Monitor.constructor | AppData.py:17-28 | empty lists, alert times 0, no alert texts |
| AppData.Monitor.UpdateGraph | AppData.py:42-47 | the in-place pops produce exactly the state and exception of `Trim` |
| AppData.Monitor.ReadArduinoData | AppData.py:90-141 | one call updates the fields and lets escape the exception that `Tick` gives for the line and the old state |
| AppData.Monitor.ProcessTemperature | AppData.py:96-109 | the in-place temperature block matches `TemperatureStep` |
| AppData.Monitor.ProcessHumidity | AppData.py:112-117 | the in-place humidity block matches `HumidityStep` |
| AppData.Monitor.ProcessNoiseLevel | AppData.py:120-133 | the in-place noise block matches `NoiseStep` |
| AppDataProps.MetricsIndependent | AppData.py:96-133 | a line never sends and never changes the alert variables; when nothing escapes, each series is what its own block makes of it; IndexError leaves everything as it was |
| AppDataProps.TemperatureReading | AppData.py:96-109 | a parsed temperature is appended; at 40 or more it then ends the line with UnboundLocalError before the other blocks; an unparsable value changes nothing; no ':' raises IndexError with nothing changed |
| AppDataProps.HumidityReading | AppData.py:112-117 | a parsed humidity is appended, unless the temperature on the same line already ended the tick; an unparsable value changes nothing; no ':' raises IndexError with nothing changed; nothing is sent and the alert variables stay as they are |
| AppDataProps.NoiseReading | AppData.py:120-133 | a parsed noise level is appended, unless the temperature already ended the tick, and it raises UnboundLocalError exactly when it is 200 or more |
| AppDataProps.HotTemperatureRaises | AppData.py:101-106 | a received line with a temperature of 40 or more appends it and ends the tick with UnboundLocalError. Nothing is sent, nothing else changes, and the trim does not run |
| AppDataProps.LoudNoiseRaises | AppData.py:125-130 | a received line with a noise level of 200 or more (and no temperature) appends it and ends the tick with UnboundLocalError, sending nothing |
| AppDataProps.TrimEvictsOldest | AppData.py:44-47 | up to 100 temperatures nothing changes. Past 100, exactly the oldest element of each of the three series is dropped, in order. An empty humidity series raises IndexError with only the temperature popped; an empty noise series raises it with the temperature and humidity popped; everything else stays as it was |
| AppDataProps.TickNeverAlerts | AppData.py:90-141 | a tick never sends a notification and never changes the module-level alert variables |
| AppDataProps.RunNeverAlerts | AppData.py:20-28 | over any run of ticks nothing is sent, and from the initial state both alert texts stay None |
| AppDataProps.TickBound | AppData.py:96-136 | from at most 100 temperatures, a tick that raises nothing leaves at most 100 and any tick at most 101; a tick stopped by UnboundLocalError on `last_alert_time_temp` has appended exactly one temperature and skipped the trim, so from a full series it leaves 101 |
| AppDataProps.RunBound | AppData.py:136-141 | from at most 100 temperatures, a run of ticks that raises nothing ends with at most 100, and one that stops on an exception with at most 101 |
| AppDataProps.IntendedTemperatureAlerts | AppData.py:101-106 | the corrected block appends the value and alerts iff it is at least 40 and 300 s have passed, recording the time and the stamped text; otherwise the alert variables are unchanged |
| AppDataProps.IntendedNoiseAlerts | AppData.py:125-130 | the corrected noise block alerts iff the level is at least 200 and 300 s have passed, with its own bookkeeping |
| AppDataProps.IntendedTickKeepsBound | AppData.py:90-141 | the corrected tick raises only IndexError and keeps at most 100 temperatures |
| AppDataProps.IntendedAgreesBelowThresholds | AppData.py:90-141 | wherever the code as written does not stop with UnboundLocalError, IndexError included, the corrected code behaves identically; the two differ only on lines that reach a threshold |

## Behaviour of the code as written

The model follows the code in these points:

- The field is `split(":")[1]`: the text between the first and the second ':', not
  everything after the first ':' (`PyStr.SecondFieldSpec`).
- A labelled line without ':' raises IndexError, which `except ValueError` does not catch,
  so the exception escapes the tick.
- The trim is driven by the length of the temperature series alone. It pops one element from
  the front of every series (of the gas series in ArduinoServerWatchDog.py only when it is
  not empty), and raises IndexError when humidity or noise is empty.
- The initial alert time is 0, so a reading at a time below 300 after the epoch does not
  alert; `FirstAlertFromStart` states the first alert from 300 on.
- In `AppData.py` the alert branches raise UnboundLocalError instead of alerting (see Findings).

## Left out

- Serial transport: the port, `in_waiting` and `readline().decode('utf-8')`. A tick receives
  `Option<string>`: the decoded line when one is waiting, `None` otherwise.
- `send_push_notification` and the Pushbullet service, including a failing push. A
  notification is the (title, body) pair returned in `sent`.
- `print`. The log lines have no effect on the state.
- Everything in `update_graph` after the trim: plotting, axis limits, `draw`.
- The Tkinter widgets, and `update_alert_labels`, `update_alerts` and `display_alerts`. These
  only read the alert variables.
- `root.after` and `mainloop` scheduling. In `AppData.Run`, an escaped exception ends the run,
  because the re-schedule is then skipped. The first call in `AppData.py` (line 169) runs
  before `mainloop`, and the model does not distinguish it.
- The grammar of Python's `float()` and `int()`, `str()` of a number, and `time.ctime()`.
  They are the parameters `parseFloat`, `parseInt`, `floatText`, `intText` and `ctime`.
- Floating point. Values and times are `real`. The source compares and subtracts only. The
  stored 0.1 of the gas remap is read only by the comparison with 200, which it fails either
  way.
- The text of the concrete received lines in `WatchDogProps` is read with `float` and `int`
  as parameters, so those lemmas assume, as their preconditions, the values Python gives for
  the digits they contain.
- The clock. The source calls `time.time()` twice in an alerting branch, and the model uses a
  single `now` per tick for both. `AppData.Tick` takes no clock: the code as written reads
  it at AppData.py:103 and :127, but the next operand raises UnboundLocalError before the
  value is used, so the outcome does not depend on it.

## Findings

| source | as written | input that shows it | evidently intended | confidence | as-written member | corrected member |
|---|---|---|---|---|---|---|
| AppData.py:101-106 | `read_arduino_data` assigns `last_alert_time_temp` and `last_temp_alert` without `global`, so they are locals. Line 103 reads the unassigned local and raises UnboundLocalError after the value was appended. No alert is sent, the alert texts stay None and the alert times 0, and the trim and re-schedule are skipped | the line `Temperatura: 45.0 °C` (value 45.0) | the module-level variables, declared `global` as in ArduinoServerWatchDog.py:75, alerting at 40 or more with a 300 s cooldown | high; not executed | AppDataProps.HotTemperatureRaises | AppDataProps.IntendedTemperatureAlerts |
| AppData.py:125-130 | the same for `last_alert_time_noise` and `last_noise_alert`: line 127 raises UnboundLocalError after the level was appended | the line `Nível de Ruído: 250` | the module-level variables, alerting at 200 or more with a 300 s cooldown | high; not executed | AppDataProps.LoudNoiseRaises | AppDataProps.IntendedNoiseAlerts |

`AppData.IntendedTick` uses both corrected blocks. `AppDataProps.IntendedTickKeepsBound` shows
that it keeps the 100-point bound, which the code as written can exceed by one
(`AppDataProps.TickBound`). `AppDataProps.IntendedAgreesBelowThresholds` shows that it differs
from the code as written only on lines that stop with UnboundLocalError, which are the lines
that reach a threshold. `AppData.Monitor` models the
code as written.
