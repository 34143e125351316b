/**
 * One reading of the device (the `sensorData` state of the dashboard) and the
 * normalisation that turns a telemetry payload into such a reading.
 *
 * `parseFloat` is not modelled: a payload field is the value it would produce,
 * `None` standing for NaN (an absent or non-numeric field).
 */
module Readings {
  import opened Wrappers

  datatype Snapshot = Snapshot(
    soilMoisture: real,
    temperature: real,
    humidity: real,
    lightIntensity: real,
    batteryLevel: real,
    timestamp: string)

  /** What `parseFloat` made of each of the five fields of the payload. */
  datatype Payload = Payload(
    soilMoisture: Option<real>,
    temperature: Option<real>,
    humidity: Option<real>,
    lightIntensity: Option<real>,
    batteryLevel: Option<real>)

  /** The fallbacks of the `|| fallback` rule. */
  const DefaultLevel: real := 0.0
  const DefaultBattery: real := 100.0

  /** JavaScript truthiness of a `parseFloat` result: NaN and 0 are falsy. */
  predicate Truthy(x: Option<real>)
  {
    x.Some? && x.value != 0.0
  }

  /** `x || fallback` for a `parseFloat` result `x`. */
  function OrElse(x: Option<real>, fallback: real): (r: real)
    ensures Truthy(x) ==> r == x.value
    ensures !Truthy(x) ==> r == fallback
    ensures fallback != 0.0 ==> r != 0.0
  {
    if Truthy(x) then x.value else fallback
  }

  /** The reading the dashboard holds before its first successful fetch. */
  function Initial(now: string): (s: Snapshot)
    ensures s.batteryLevel == DefaultBattery && s.timestamp == now
  {
    Snapshot(DefaultLevel, DefaultLevel, DefaultLevel, DefaultLevel, DefaultBattery, now)
  }

  /** A reading that normalisation can produce: its battery is never 0. */
  predicate Normalised(s: Snapshot)
  {
    s.batteryLevel != 0.0
  }

  /** Builds the new reading from a successful fetch, stamped with the time of receipt. */
  function Normalise(p: Payload, receivedAt: string): (s: Snapshot)
    ensures s.timestamp == receivedAt
    ensures Normalised(s)
    ensures Truthy(p.soilMoisture) ==> s.soilMoisture == p.soilMoisture.value
    ensures !Truthy(p.soilMoisture) ==> s.soilMoisture == 0.0
    ensures Truthy(p.temperature) ==> s.temperature == p.temperature.value
    ensures !Truthy(p.temperature) ==> s.temperature == 0.0
    ensures Truthy(p.humidity) ==> s.humidity == p.humidity.value
    ensures !Truthy(p.humidity) ==> s.humidity == 0.0
    ensures Truthy(p.lightIntensity) ==> s.lightIntensity == p.lightIntensity.value
    ensures !Truthy(p.lightIntensity) ==> s.lightIntensity == 0.0
    ensures Truthy(p.batteryLevel) ==> s.batteryLevel == p.batteryLevel.value
    ensures !Truthy(p.batteryLevel) ==> s.batteryLevel == 100.0
  {
    Snapshot(
      OrElse(p.soilMoisture, DefaultLevel),
      OrElse(p.temperature, DefaultLevel),
      OrElse(p.humidity, DefaultLevel),
      OrElse(p.lightIntensity, DefaultLevel),
      OrElse(p.batteryLevel, DefaultBattery),
      receivedAt)
  }

  /** The payload whose fields parse to exactly the five values of `s`. */
  function AsPayload(s: Snapshot): (p: Payload)
    ensures Truthy(p.batteryLevel) <==> s.batteryLevel != 0.0
  {
    Payload(Some(s.soilMoisture), Some(s.temperature), Some(s.humidity),
            Some(s.lightIntensity), Some(s.batteryLevel))
  }

  /** A battery reported as exactly 0 is shown as 100, like a missing one. */
  lemma ZeroBatteryBecomesFull(p: Payload, receivedAt: string)
    requires p.batteryLevel == Some(0.0)
    ensures Normalise(p, receivedAt).batteryLevel == 100.0
    ensures Normalise(p, receivedAt) == Normalise(p.(batteryLevel := None), receivedAt)
  {
  }

  /** Feeding a reading's own values back through normalisation gives it back exactly when
      it is one normalisation can produce. */
  lemma NormaliseFixedPoint(s: Snapshot)
    ensures Normalise(AsPayload(s), s.timestamp) == s <==> Normalised(s)
  {
    if Normalised(s) {
      var t := Normalise(AsPayload(s), s.timestamp);
      assert t.soilMoisture == s.soilMoisture;
      assert t.temperature == s.temperature;
      assert t.humidity == s.humidity;
      assert t.lightIntensity == s.lightIntensity;
    }
  }

  /** Normalising is idempotent. */
  lemma NormaliseIdempotent(p: Payload, receivedAt: string)
    ensures Normalise(AsPayload(Normalise(p, receivedAt)), receivedAt) == Normalise(p, receivedAt)
  {
    NormaliseFixedPoint(Normalise(p, receivedAt));
  }

  /** The initial reading is what normalising an all-missing payload yields. */
  lemma InitialIsEmptyPayload(now: string)
    ensures Initial(now) == Normalise(Payload(None, None, None, None, None), now)
    ensures Normalised(Initial(now))
  {
  }
}
