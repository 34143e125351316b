/**
 * Device commands: the request body sent to the command endpoint and the
 * status line the dashboard shows while a command is dispatched.
 */
module Commands {

  datatype Command = Water | LightOn | Reset

  /** The name put in the request's `command` field by each button. */
  function WireName(c: Command): (name: string)
    ensures name in {"water", "light_on", "reset"}
  {
    match c
    case Water => "water"
    case LightOn => "light_on"
    case Reset => "reset"
  }

  /** Every request names the one device the dashboard controls. */
  const DeviceId: string := "sensor1"

  datatype CommandRequest = CommandRequest(command: string, deviceId: string, timestamp: string)

  /** The POST body for `c`, stamped with its issue time. */
  function RequestFor(c: Command, issuedAt: string): (r: CommandRequest)
    ensures r.deviceId == DeviceId && r.timestamp == issuedAt
    ensures forall d: Command :: r.command == WireName(d) <==> d == c
  {
    CommandRequest(WireName(c), DeviceId, issuedAt)
  }

  /** The status lines. */
  const NoStatus: string := ""
  const Sending: string := "Sending..."
  const FailedStatus: string := "\U{274C} Command failed"

  /** The status line after a successful command carrying `message`. */
  function SucceededStatus(message: string): (line: string)
    ensures |line| == |message| + 2 && line[..2] == "\U{2705} " && line[2..] == message
    ensures line != NoStatus && line != Sending && line != FailedStatus
  {
    var line := "\U{2705} " + message;
    assert line[0] != Sending[0] && line[0] != FailedStatus[0];
    line
  }

  /** Different messages give different status lines. */
  lemma SucceededStatusInjective(m1: string, m2: string)
    requires SucceededStatus(m1) == SucceededStatus(m2)
    ensures m1 == m2
  {
    assert m1 == SucceededStatus(m1)[2..];
  }
}
