/**
 * The dashboard component's state, held in one object, with one method per
 * event that changes it: mounting, a poll tick, a fetch that succeeds or
 * fails, a command button press, the command's outcome, the delayed refresh
 * timer and the auto-watering switch.
 *
 * HTTP, timers and clocks are outside the model: a fetch or command result
 * arrives as an event carrying its outcome, a timer firing is an event, and
 * every clock reading (display times, `Date.now()` ids) is a parameter.
 */
module Dashboard {
  import opened Wrappers
  import opened Readings
  import opened History
  import opened Alerts
  import opened Commands
  import Health

  datatype Connection = Connecting | Connected | Disconnected

  /** The text shown for each connection state. */
  function ConnectionLabel(c: Connection): (text: string)
    ensures text == "Connected \U{2713}" <==> c == Connected
  {
    match c
    case Connecting => "Connecting..."
    case Connected => "Connected \U{2713}"
    case Disconnected => "Disconnected - Check API"
  }

  class Dashboard {
    var sensorData: Snapshot
    var history: seq<Entry>
    var loading: bool
    var alerts: seq<Alert>
    var commandStatus: string
    var connection: Connection
    var lastUpdate: Option<string>
    var autoWateringEnabled: bool
    /** Refresh timers scheduled by successful commands that have not fired yet. */
    var pendingRefreshes: nat
    /** Fetches started so far, by mounting, by poll ticks and by refresh timers. */
    var fetchesStarted: nat

    /** What holds between events: the reading is normalised, the alerts are those of the
        reading, the log is bounded, free of consecutive duplicates and headed by the
        current values, and until a fetch succeeds the reading is the initial one. */
    ghost predicate Valid()
      reads this
    {
      && Normalised(sensorData)
      && alerts == AlertsFor(sensorData)
      && WellFormed(history)
      && history != [] && SameValues(history[0].reading, sensorData)
      && (connection == Connecting ==> lastUpdate == None)
      && (lastUpdate == None ==> sensorData == Initial(sensorData.timestamp))
    }

    /** The health tier shown in the header, for the current reading. */
    function HealthStatus(): (h: Health.Status)
      reads this
      requires Valid()
      ensures h == Health.Critical <==> alerts != []
      ensures h == Health.Warning <==>
        alerts == [] && (sensorData.soilMoisture < 40.0 || sensorData.humidity < 50.0)
    {
      Health.HealthOf(sensorData)
    }

    /** The command buttons are enabled. */
    predicate CanDispatch()
      reads this
    {
      !loading
    }

    /** Mounting: the hook's initial values, the reading effect run on the initial reading,
        and the first fetch started at once. */
    constructor Mount(now: string, id: int)
      ensures Valid()
      ensures sensorData == Initial(now)
      ensures history == [Entry(Initial(now), id)]
      ensures alerts == [LowMoisture]
      ensures !loading && commandStatus == NoStatus
      ensures connection == Connecting && lastUpdate == None
      ensures !autoWateringEnabled
      ensures pendingRefreshes == 0 && fetchesStarted == 1
    {
      sensorData := Initial(now);
      history := [];
      alerts := [];
      loading := false;
      commandStatus := NoStatus;
      connection := Connecting;
      lastUpdate := None;
      autoWateringEnabled := false;
      pendingRefreshes := 0;
      fetchesStarted := 1;
      new;
      ReadingChanged(id);
    }

    /** The effect that runs whenever the reading is replaced: update the log, rebuild the alerts. */
    method ReadingChanged(id: int)
      requires WellFormed(history)
      modifies this`history, this`alerts
      ensures history == Reduce(old(history), sensorData, id)
      ensures alerts == AlertsFor(sensorData)
      ensures WellFormed(history) && history != [] && SameValues(history[0].reading, sensorData)
    {
      ReducePreserves(history, sensorData, id);
      history := Reduce(history, sensorData, id);
      alerts := BuildAlerts(sensorData);
    }

    /** A poll tick of the 3-second interval starts one fetch. */
    method PollTick()
      requires Valid()
      modifies this`fetchesStarted
      ensures Valid()
      ensures fetchesStarted == old(fetchesStarted) + 1
    {
      fetchesStarted := fetchesStarted + 1;
    }

    /** A fetch returned a payload: replace the reading, mark the connection up, record the
        time of the update, then run the reading effect. */
    method FetchSucceeded(p: Payload, receivedAt: string, updatedAt: string, id: int)
      requires Valid()
      modifies this`sensorData, this`connection, this`lastUpdate, this`history, this`alerts
      ensures Valid()
      ensures sensorData == Normalise(p, receivedAt)
      ensures connection == Connected && lastUpdate == Some(updatedAt)
      ensures history == Reduce(old(history), sensorData, id)
      ensures alerts == AlertsFor(sensorData)
    {
      sensorData := Normalise(p, receivedAt);
      connection := Connected;
      lastUpdate := Some(updatedAt);
      ReadingChanged(id);
    }

    /** A fetch failed: only the connection changes; the stale reading stays on screen. */
    method FetchFailed()
      requires Valid()
      modifies this`connection
      ensures Valid()
      ensures connection == Disconnected
    {
      connection := Disconnected;
    }

    /** A command button is pressed. While a command is in flight the buttons are disabled and
        nothing happens; otherwise the dashboard turns busy, shows "Sending..." and sends
        the request it returns. */
    method PressCommand(c: Command, issuedAt: string) returns (sent: Option<CommandRequest>)
      requires Valid()
      modifies this`loading, this`commandStatus
      ensures Valid()
      ensures old(loading) ==> sent == None && loading && commandStatus == old(commandStatus)
      ensures !old(loading) ==> sent == Some(RequestFor(c, issuedAt)) && loading && commandStatus == Sending
    {
      if loading {
        sent := None;
      } else {
        loading := true;
        commandStatus := Sending;
        sent := Some(RequestFor(c, issuedAt));
      }
    }

    /** The command endpoint answered with `message`: show it, schedule one delayed refresh,
        and clear the busy flag. */
    method CommandSucceeded(message: string)
      requires Valid() && loading
      modifies this`commandStatus, this`pendingRefreshes, this`loading
      ensures Valid()
      ensures commandStatus == SucceededStatus(message)
      ensures pendingRefreshes == old(pendingRefreshes) + 1
      ensures !loading
    {
      commandStatus := SucceededStatus(message);
      pendingRefreshes := pendingRefreshes + 1;
      loading := false;
    }

    /** The command failed: show the failure line, schedule nothing, clear the busy flag. */
    method CommandFailed()
      requires Valid() && loading
      modifies this`commandStatus, this`loading
      ensures Valid()
      ensures commandStatus == FailedStatus
      ensures !loading
    {
      commandStatus := FailedStatus;
      loading := false;
    }

    /** A delayed refresh fires: start one fetch and clear the status line. */
    method RefreshTimerFired()
      requires Valid() && pendingRefreshes > 0
      modifies this`pendingRefreshes, this`fetchesStarted, this`commandStatus
      ensures Valid()
      ensures pendingRefreshes == old(pendingRefreshes) - 1
      ensures fetchesStarted == old(fetchesStarted) + 1
      ensures commandStatus == NoStatus
    {
      pendingRefreshes := pendingRefreshes - 1;
      fetchesStarted := fetchesStarted + 1;
      commandStatus := NoStatus;
    }

    /** The auto-watering switch flips its preference and nothing else. */
    method ToggleAutoWatering()
      requires Valid()
      modifies this`autoWateringEnabled
      ensures Valid()
      ensures autoWateringEnabled == !old(autoWateringEnabled)
    {
      autoWateringEnabled := !autoWateringEnabled;
    }
  }
}
