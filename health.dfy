/**
 * The coarse health tier of the plant (`getHealthStatus`).
 */
module Health {
  import opened Wrappers
  import opened Readings
  import Alerts

  datatype Status = Healthy | Warning | Critical

  /** Critical thresholds first, then the looser warning ones. */
  function HealthOf(s: Snapshot): (h: Status)
    ensures h == Critical <==> Alerts.AlertsFor(s) != []
    ensures h == Warning <==> Alerts.AlertsFor(s) == [] && (s.soilMoisture < 40.0 || s.humidity < 50.0)
    ensures h == Healthy <==> Alerts.AlertsFor(s) == [] && s.soilMoisture >= 40.0 && s.humidity >= 50.0
  {
    if s.soilMoisture < 30.0 || s.temperature > 30.0 || s.batteryLevel < 20.0 then Critical
    else if s.soilMoisture < 40.0 || s.humidity < 50.0 then Warning
    else Healthy
  }

  /** A reading with the given moisture, temperature, humidity and battery, no light and no
      timestamp, for the worked examples below. */
  function Reading(moisture: real, temperature: real, humidity: real, battery: real): (s: Snapshot)
  {
    Snapshot(moisture, temperature, humidity, 0.0, battery, "")
  }

  /** Moisture 25 raises one alert and makes the plant critical. */
  lemma DryIsCritical()
    ensures Alerts.AlertsFor(Reading(25.0, 20.0, 60.0, 50.0)) == [Alerts.LowMoisture]
    ensures HealthOf(Reading(25.0, 20.0, 60.0, 50.0)) == Critical
  {
  }

  /** Low humidity gives a warning tier with no alert message. */
  lemma DryAirIsWarningWithoutAlert()
    ensures Alerts.AlertsFor(Reading(35.0, 20.0, 40.0, 50.0)) == []
    ensures HealthOf(Reading(35.0, 20.0, 40.0, 50.0)) == Warning
  {
  }

  /** Comfortable readings: no alerts, healthy. */
  lemma ComfortableIsHealthy()
    ensures Alerts.AlertsFor(Reading(60.0, 22.0, 70.0, 80.0)) == []
    ensures HealthOf(Reading(60.0, 22.0, 70.0, 80.0)) == Healthy
  {
  }

  /** A payload with unparsable moisture and battery 15: four fields default to 0, both the
      moisture and the battery alerts fire, and the plant is critical. */
  lemma UnparsableMoistureLowBattery(receivedAt: string)
    ensures var s := Normalise(Payload(None, None, None, None, Some(15.0)), receivedAt);
      && s == Snapshot(0.0, 0.0, 0.0, 0.0, 15.0, receivedAt)
      && Alerts.AlertsFor(s) == [Alerts.LowMoisture, Alerts.LowBattery]
      && HealthOf(s) == Critical
  {
  }

  /** A battery reported as exactly 0 is taken for a full one, so it raises no battery alert. */
  lemma DeadBatteryRaisesNoAlert(p: Payload, receivedAt: string)
    requires p.batteryLevel == Some(0.0)
    ensures Alerts.LowBattery !in Alerts.AlertsFor(Normalise(p, receivedAt))
  {
  }
}
