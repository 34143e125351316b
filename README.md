# PlantX dashboard state engine, modelled in Dafny

The PlantX dashboard is a React component that monitors one plant sensor
(`sensor1`). It polls a telemetry endpoint every three seconds and turns each
payload into a normalised reading. It keeps a newest-first log of the last ten
readings that each differ from the one before, rebuilds an alert list, and derives a health tier
(Healthy, Warning, Critical). It also sends `water`, `light_on` and `reset`
commands to the device, showing a busy flag and a status line while it does.

With rendering and HTTP removed, this logic is deterministic. The model has:

- `Readings`: the reading record and the `parseFloat(x) || fallback` rule. A
  field that does not parse (NaN), or parses to 0, takes the fallback. The
  fallback is 0, or 100 for the battery. So a battery reported as exactly 0
  is shown as 100 and never raises the low-battery alert.
- `History`: the `setHistory` updater. It records a reading when the log is
  empty or any of the five numeric fields differs from the head. A recorded
  reading goes at the front and the log is cut to ten entries; otherwise the
  log is unchanged. Lemmas cover folds of the updater over many readings.
- `Alerts` and `Health`: the three alert rules, in order, and
  `getHealthStatus`. Health is Critical exactly when the alert list is
  non-empty.
- `Commands`: the request body and the status lines of a dispatch.
- `Dashboard`: a class holding the component's hook state. It has one method
  per event: mount, poll tick, fetch success, fetch failure, button press,
  command success, command failure, refresh-timer firing, and the
  auto-watering toggle. `CanDispatch()` is the buttons' `disabled={loading}`
  test, and `PressCommand` does nothing when it is false. `Valid()` is the invariant every event keeps:
  - the alert list is the current reading's;
  - the log is bounded, has no two equal neighbours, and its head carries
    the current values;
  - until a fetch succeeds, the reading is the initial one.
- `Scenarios`: event sequences and the states they are proved to end in.

Mounting runs the reading effect on the initial reading (0, 0, 0, 0, 100).
So the log starts with that reading, and the alert list starts with
"Low soil moisture!" (0 < 30).

Clock reads are parameters: the `toLocaleTimeString`/`toLocaleString`/
`toISOString` strings and the `Date.now()` ids. Nothing is claimed about ids
being unique or increasing, because the code does not guarantee it. HTTP
results are inputs. A fetch result is a `Payload` of `parseFloat` results,
with `None` for NaN, or a failure event. A command result is a message or a
failure event.

Where the system's design description differs from the code, the model
follows the code:

- The description says a battery falls back to 100 only when it is missing or
  non-numeric. In the code, a reading of exactly 0 falls back too
  (`Readings.ZeroBatteryBecomesFull`, `Health.DeadBatteryRaisesNoAlert`).
- The description calls history ids unique and strictly increasing. The code
  takes them from `Date.now()`, which guarantees neither.
- The description's example payload, with an unparsable moisture and battery
  15, names only the battery alert. The code also raises "Low soil moisture!",
  because the defaulted moisture 0 is below 30
  (`Health.UnparsableMoistureLowBattery`).
- The description says a failure line stays until the next dispatch. In the
  code, a refresh timer left by an earlier successful command still fires
  and empties the status line, failure line included
  (`Dashboard.Dashboard.RefreshTimerFired` clears it unconditionally;
  `Scenarios.EarlierRefreshClearsFailure`).

## Model

| member | source | states |
|---|---|---|
| Readings.OrElse | dashboard/plantx-dashboard/src/Dashboard.js:37-41 | `x \|\| fallback` is the parsed value when it is a number other than 0, and the fallback otherwise; with a non-zero fallback the result is never 0 |
| Readings.Initial | dashboard/plantx-dashboard/src/Dashboard.js:10-17 | the reading before any fetch has battery 100 and the mount time |
| Readings.Normalise | dashboard/plantx-dashboard/src/Dashboard.js:36-43 | each field is the parsed value when that is a non-zero number, else 0 (100 for the battery); the timestamp is the time of receipt; the battery is never 0 |
| Readings.ZeroBatteryBecomesFull | dashboard/plantx-dashboard/src/Dashboard.js:41 | a battery reported as 0 becomes 100, exactly as if it were missing |
| Readings.NormaliseFixedPoint | dashboard/plantx-dashboard/src/Dashboard.js:36-43 | feeding a reading's own values back through normalisation returns it exactly when its battery is not 0 (both directions) |
| Readings.NormaliseIdempotent | dashboard/plantx-dashboard/src/Dashboard.js:36-43 | normalising a normalised reading changes nothing |
| Readings.InitialIsEmptyPayload | dashboard/plantx-dashboard/src/Dashboard.js:10-17 | the initial reading equals the normalisation of an all-missing payload, so it is normalised too |
| History.Reduce | dashboard/plantx-dashboard/src/Dashboard.js:89-112 | when the log is empty or the head differs in some of the five fields: the new entry is the reading with its id, entry i+1 is old entry i, and the length is min(old length + 1, 10); otherwise the log is returned unchanged |
| History.ReducePreserves | dashboard/plantx-dashboard/src/Dashboard.js:89-112 | a log of at most 10 entries with no equal neighbours stays so, and afterwards its head carries the reading's five values |
| History.ReduceIdempotent | dashboard/plantx-dashboard/src/Dashboard.js:90-111 | reducing the same reading twice in a row equals reducing it once, whatever id the second call brings |
| History.ReduceDistinctPair | dashboard/plantx-dashboard/src/Dashboard.js:99-104 | a one-entry log and a differing reading give a two-entry log, the new reading first |
| History.ReduceAllChanging | dashboard/plantx-dashboard/src/Dashboard.js:99-110 | after N readings that each differ from the previous one, starting from an empty log, the log holds the min(N, 10) most recent readings, newest first |
| History.ReturningReadingRecordedAgain | dashboard/plantx-dashboard/src/Dashboard.js:90-104 | only the head is compared: readings a, b, a with a and b different give three entries, equal values at the first and last |
| History.ReduceAllPreserves | dashboard/plantx-dashboard/src/Dashboard.js:88-112 | any sequence of readings keeps a log bounded by 10 and free of equal neighbours |
| Alerts.AlertsFor | dashboard/plantx-dashboard/src/Dashboard.js:114-124 | "Low soil moisture!" iff moisture < 30, "High temperature!" iff temperature > 30, "Low battery!" iff battery < 20, in that order, at most 3, and a critical alert iff battery < 20 |
| Alerts.BuildAlerts | dashboard/plantx-dashboard/src/Dashboard.js:114-124 | pushing rule by rule onto an empty list yields exactly the alert list of the reading |
| Alerts.AlertsIgnoreOtherFields | dashboard/plantx-dashboard/src/Dashboard.js:114-123 | readings that agree on moisture, temperature and battery get the same alerts; humidity never raises one |
| Health.HealthOf | dashboard/plantx-dashboard/src/Dashboard.js:127-135 | Critical iff some alert fires; Warning iff no alert fires and (moisture < 40 or humidity < 50); Healthy iff neither |
| Health.DryIsCritical | dashboard/plantx-dashboard/src/Dashboard.js:115-129 | moisture 25 raises only the moisture alert and gives Critical |
| Health.DryAirIsWarningWithoutAlert | dashboard/plantx-dashboard/src/Dashboard.js:127-133 | moisture 35 with humidity 40 gives Warning with no alert |
| Health.ComfortableIsHealthy | dashboard/plantx-dashboard/src/Dashboard.js:127-135 | moisture 60, temperature 22, humidity 70, battery 80 gives no alert and Healthy |
| Health.UnparsableMoistureLowBattery | dashboard/plantx-dashboard/src/Dashboard.js:36-43 | an unparsable moisture and battery 15 give the reading (0, 0, 0, 0, 15), both the moisture and the battery alerts, and Critical |
| Health.DeadBatteryRaisesNoAlert | dashboard/plantx-dashboard/src/Dashboard.js:41 | a battery reported as 0 raises no low-battery alert |
| Commands.WireName | dashboard/plantx-dashboard/src/Dashboard.js:235-251 | each button sends one of the command names `water`, `light_on`, `reset` |
| Commands.RequestFor | dashboard/plantx-dashboard/src/Dashboard.js:59-63 | the request names device `sensor1`, carries the issue time, and its command name identifies the button's command |
| Commands.SucceededStatus | dashboard/plantx-dashboard/src/Dashboard.js:66 | the success line is "✅ " (the check mark and a space) followed by the message, and is never the empty, sending or failure line |
| Commands.SucceededStatusInjective | dashboard/plantx-dashboard/src/Dashboard.js:66 | different messages give different success lines |
| Dashboard.ConnectionLabel | dashboard/plantx-dashboard/src/Dashboard.js:23-50 | the label is "Connected ✓" exactly in the Connected state |
| Dashboard.Dashboard.HealthStatus | dashboard/plantx-dashboard/src/Dashboard.js:127-137 | in a valid state the header shows Critical iff the alert list is non-empty, and Warning iff it is empty and moisture < 40 or humidity < 50 |
| Dashboard.Dashboard.Mount | dashboard/plantx-dashboard/src/Dashboard.js:10-124 | the initial hook values (lines 10-25), the first fetch started at once (line 82), then the reading effect (lines 88-124): a one-entry log of the initial reading, the moisture alert, connection Connecting, no last update, and one fetch started |
| Dashboard.Dashboard.ReadingChanged | dashboard/plantx-dashboard/src/Dashboard.js:88-125 | the log becomes the reduction of the old log by the current reading, and the alerts become the reading's; the log stays well formed |
| Dashboard.Dashboard.PollTick | dashboard/plantx-dashboard/src/Dashboard.js:81-85 | a tick starts exactly one fetch and changes nothing else |
| Dashboard.Dashboard.FetchSucceeded | dashboard/plantx-dashboard/src/Dashboard.js:28-46 | the reading becomes the normalised payload, the connection Connected, the last update the given time, and the log and alerts follow the reading; busy flag, status line and toggle are untouched |
| Dashboard.Dashboard.FetchFailed | dashboard/plantx-dashboard/src/Dashboard.js:47-51 | only the connection changes, to Disconnected; reading, last update, log and alerts are untouched |
| Dashboard.Dashboard.PressCommand | dashboard/plantx-dashboard/src/Dashboard.js:55-63 | while busy the press sends nothing and changes nothing; otherwise the dashboard becomes busy, shows "Sending..." and sends the request for the command |
| Dashboard.Dashboard.CommandSucceeded | dashboard/plantx-dashboard/src/Dashboard.js:64-77 | the status line shows the message, exactly one refresh timer is added, and the busy flag is cleared |
| Dashboard.Dashboard.CommandFailed | dashboard/plantx-dashboard/src/Dashboard.js:73-77 | the status line shows the failure line, no timer is scheduled, and the busy flag is cleared |
| Dashboard.Dashboard.RefreshTimerFired | dashboard/plantx-dashboard/src/Dashboard.js:69-72 | one pending timer is consumed, one fetch is started, and the status line is emptied |
| Dashboard.Dashboard.ToggleAutoWatering | dashboard/plantx-dashboard/src/Dashboard.js:267 | the preference flips and nothing else changes |
| Scenarios.SuccessfulDispatch | dashboard/plantx-dashboard/src/Dashboard.js:55-78 | press, success and the timer firing: the request went out, the dashboard is idle with an empty status line, and exactly one fetch started |
| Scenarios.FailedDispatch | dashboard/plantx-dashboard/src/Dashboard.js:55-78 | press then failure: idle with the failure line shown, no new refresh scheduled and no fetch started; a refresh left by an earlier success still clears the line when it fires |
| Scenarios.EarlierRefreshClearsFailure | dashboard/plantx-dashboard/src/Dashboard.js:69-75 | a failure while an earlier success's refresh is pending: that timer fires and empties the failure line |
| Scenarios.PressWhileBusy | dashboard/plantx-dashboard/src/Dashboard.js:234-257 | a second press while a command is in flight sends nothing |
| Scenarios.ToggleTwice | dashboard/plantx-dashboard/src/Dashboard.js:267 | toggling twice restores the preference and touches nothing else |
| Scenarios.SamePayloadTwice | dashboard/plantx-dashboard/src/Dashboard.js:88-112 | two polls returning the same payload leave the log as after the first one |

## Left out

- HTTP: `axios.get`/`axios.post` and the double `JSON.parse` of the command response. A fetch or command outcome arrives as an event carrying the payload or message, or as a failure event.
- `parseFloat`: string-to-number parsing is not modelled. Each payload field is the value it parses to, with `None` for NaN.
- Timers and concurrency. The 3-second interval and its cleanup, and the 1-second refresh delay, are explicit events (`PollTick`, `RefreshTimerFired`). Last-write-wins races between overlapping fetches are not modelled: a fetch outcome is applied to the current state whenever it arrives.
- Double clicks before React re-renders the disabled buttons are not modelled. `CommandSucceeded` and `CommandFailed` require an in-flight command (`loading`), which the disabled buttons guarantee.
- Clock reads: display timestamps, `lastUpdate` strings and `Date.now()` ids are parameters.
- Rendering: JSX, `toFixed`, bar widths, CSS colour classes (including the colours `getHealthStatus` returns with the tier) and console logging.
- Floating point: readings are `real`, since the code only compares them with `<`, `>` and `!==`. After normalisation no NaN can reach those comparisons. `parseFloat` can also return ±Infinity (for "Infinity" or an overflowing literal), which has no `real` counterpart: the model does not cover such payloads, for which the code would, for instance, raise "High temperature!" on +Infinity.
