/**
 * The alert list rebuilt from the current reading each time it changes.
 */
module Alerts {
  import opened Readings

  datatype AlertType = Warning | Critical

  datatype Alert = Alert(kind: AlertType, msg: string)

  const LowMoisture: Alert := Alert(Warning, "Low soil moisture!")
  const HighTemperature: Alert := Alert(Warning, "High temperature!")
  const LowBattery: Alert := Alert(Critical, "Low battery!")

  /** Position of a rule in the order the rules are evaluated. */
  function Rank(a: Alert): (n: nat)
  {
    if a == LowMoisture then 0 else if a == HighTemperature then 1 else 2
  }

  /** The alerts for a reading: one per rule that fires, in rule order. */
  function AlertsFor(s: Snapshot): (r: seq<Alert>)
    ensures |r| <= 3
    ensures LowMoisture in r <==> s.soilMoisture < 30.0
    ensures HighTemperature in r <==> s.temperature > 30.0
    ensures LowBattery in r <==> s.batteryLevel < 20.0
    ensures forall i :: 0 <= i < |r| ==> r[i] in {LowMoisture, HighTemperature, LowBattery}
    ensures forall i, j :: 0 <= i < j < |r| ==> Rank(r[i]) < Rank(r[j])
    ensures (exists i :: 0 <= i < |r| && r[i].kind == Critical) <==> s.batteryLevel < 20.0
  {
    (if s.soilMoisture < 30.0 then [LowMoisture] else [])
    + (if s.temperature > 30.0 then [HighTemperature] else [])
    + (if s.batteryLevel < 20.0 then [LowBattery] else [])
  }

  /** Builds the list as the effect does, pushing onto an empty array rule by rule. */
  method BuildAlerts(s: Snapshot) returns (alerts: seq<Alert>)
    ensures alerts == AlertsFor(s)
  {
    alerts := [];
    if s.soilMoisture < 30.0 {
      alerts := alerts + [LowMoisture];
    }
    if s.temperature > 30.0 {
      alerts := alerts + [HighTemperature];
    }
    if s.batteryLevel < 20.0 {
      alerts := alerts + [LowBattery];
    }
  }

  /** Humidity, light and the timestamp never raise or silence an alert. */
  lemma AlertsIgnoreOtherFields(s: Snapshot, t: Snapshot)
    requires s.soilMoisture == t.soilMoisture
    requires s.temperature == t.temperature
    requires s.batteryLevel == t.batteryLevel
    ensures AlertsFor(s) == AlertsFor(t)
  {
  }
}
