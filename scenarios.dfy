/**
 * Event sequences on the dashboard state, with what they are proved to end in.
 */
module Scenarios {
  import opened Wrappers
  import opened Readings
  import opened History
  import opened Commands
  import opened Dashboard

  /** Pressing, the command succeeding, and its refresh timer firing: the request went out,
      the dashboard is idle again with an empty status line, and exactly one fetch started. */
  method SuccessfulDispatch(d: Dashboard, c: Command, issuedAt: string, message: string)
      returns (sent: Option<CommandRequest>)
    requires d.Valid() && d.CanDispatch()
    modifies d`loading, d`commandStatus, d`pendingRefreshes, d`fetchesStarted
    ensures d.Valid()
    ensures sent == Some(RequestFor(c, issuedAt))
    ensures !d.loading && d.commandStatus == NoStatus
    ensures d.pendingRefreshes == old(d.pendingRefreshes)
    ensures d.fetchesStarted == old(d.fetchesStarted) + 1
    ensures d.sensorData == old(d.sensorData) && d.history == old(d.history)
  {
    sent := d.PressCommand(c, issuedAt);
    d.CommandSucceeded(message);
    assert d.commandStatus == SucceededStatus(message);
    d.RefreshTimerFired();
  }

  /** Pressing and the command failing: idle again with the failure line shown, and no new
      refresh scheduled (one left by an earlier successful command still clears the line). */
  method FailedDispatch(d: Dashboard, c: Command, issuedAt: string)
      returns (sent: Option<CommandRequest>)
    requires d.Valid() && d.CanDispatch()
    modifies d`loading, d`commandStatus
    ensures d.Valid()
    ensures sent == Some(RequestFor(c, issuedAt))
    ensures !d.loading && d.commandStatus == FailedStatus
    ensures d.pendingRefreshes == old(d.pendingRefreshes)
    ensures d.fetchesStarted == old(d.fetchesStarted)
  {
    sent := d.PressCommand(c, issuedAt);
    d.CommandFailed();
  }

  /** A failure while a refresh from an earlier success is still pending: when that timer
      fires, it empties the failure line. */
  method EarlierRefreshClearsFailure(d: Dashboard, c: Command, issuedAt: string)
    requires d.Valid() && d.CanDispatch() && d.pendingRefreshes > 0
    modifies d`loading, d`commandStatus, d`pendingRefreshes, d`fetchesStarted
    ensures d.Valid()
    ensures !d.loading && d.commandStatus == NoStatus
    ensures d.pendingRefreshes == old(d.pendingRefreshes) - 1
  {
    var sent := d.PressCommand(c, issuedAt);
    d.CommandFailed();
    assert d.commandStatus == FailedStatus;
    d.RefreshTimerFired();
  }

  /** A second press while the first command is in flight sends nothing. */
  method PressWhileBusy(d: Dashboard, c1: Command, c2: Command, t1: string, t2: string)
      returns (first: Option<CommandRequest>, second: Option<CommandRequest>)
    requires d.Valid() && d.CanDispatch()
    modifies d`loading, d`commandStatus
    ensures first == Some(RequestFor(c1, t1)) && second == None
    ensures d.loading && d.commandStatus == Sending
  {
    first := d.PressCommand(c1, t1);
    second := d.PressCommand(c2, t2);
  }

  /** Flipping the auto-watering switch twice restores it; nothing else is touched. */
  method ToggleTwice(d: Dashboard)
    requires d.Valid()
    modifies d`autoWateringEnabled
    ensures d.Valid()
    ensures d.autoWateringEnabled == old(d.autoWateringEnabled)
  {
    d.ToggleAutoWatering();
    d.ToggleAutoWatering();
  }

  /** Two polls that return the same payload record it once. */
  method SamePayloadTwice(d: Dashboard, p: Payload, t1: string, t2: string, id1: int, id2: int)
    requires d.Valid()
    modifies d`sensorData, d`connection, d`lastUpdate, d`history, d`alerts
    ensures d.Valid()
    ensures d.sensorData == Normalise(p, t2)
    ensures d.history == Reduce(old(d.history), Normalise(p, t1), id1)
  {
    d.FetchSucceeded(p, t1, t1, id1);
    ghost var once := d.history;
    d.FetchSucceeded(p, t2, t2, id2);
    assert once != [] && SameValues(once[0].reading, Normalise(p, t2));
  }
}
