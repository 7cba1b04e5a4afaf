/**
 * The sensor loop (`control/Sensor.java`): on each tick it takes the latest
 * simulator sample, derives the vertical speed from the altitude change since
 * the previous sample, and publishes the aircraft state.  The connector's
 * readiness, its latest sample and `System.nanoTime()` are inputs; each
 * published state is recorded.
 */
module Sensing {
  import opened Wrappers
  import opened Domain

  const NanosPerSecond: real := 1_000_000_000.0

  /** `(altitudeChange / dt) * 60.0` with `dt = elapsedNs / 1e9`: feet per minute. */
  function ClimbRate(altitudeChange: real, elapsedNs: int): (fpm: real)
    requires elapsedNs > 0
    ensures fpm * (elapsedNs as real) == altitudeChange * 60.0 * NanosPerSecond
    ensures fpm > 0.0 <==> altitudeChange > 0.0
    ensures fpm == 0.0 <==> altitudeChange == 0.0
  {
    var dt := elapsedNs as real / NanosPerSecond;
    var fpm := (altitudeChange / dt) * 60.0;
    assert fpm == altitudeChange * 60.0 * NanosPerSecond / elapsedNs as real;
    fpm
  }

  /** The sensor's vertical speed: 0 on the first sample and when the clock has not moved on. */
  function VerticalSpeed(previousAltitude: real, previousTimeNanos: int, altitude: real, nowNs: int): (fpm: real)
    ensures previousTimeNanos == 0 || nowNs <= previousTimeNanos ==> fpm == 0.0
    ensures previousTimeNanos != 0 && previousTimeNanos < nowNs ==>
              fpm * ((nowNs - previousTimeNanos) as real) == (altitude - previousAltitude) * 60.0 * NanosPerSecond
  {
    if previousTimeNanos != 0 && nowNs - previousTimeNanos > 0 then
      ClimbRate(altitude - previousAltitude, nowNs - previousTimeNanos)
    else 0.0
  }

  /** The state published for a sample: bank becomes roll, airspeed speed, yaw is 0. */
  function StateOf(t: TelemetryData, verticalSpeedFpm: real): (s: State)
    ensures s.latitude == t.latitude && s.longitude == t.longitude
    ensures s.heading == t.heading && s.altitude == t.altitude
    ensures s.roll == t.bank && s.pitch == t.pitch && s.yaw == 0.0
    ensures s.speed == t.airspeed && s.climb == verticalSpeedFpm
  {
    State(t.latitude, t.longitude, t.heading, t.altitude, t.bank, t.pitch, 0.0, t.airspeed, verticalSpeedFpm)
  }

  /** Holding altitude reads as level flight; climbing while the clock moves on reads as a positive rate. */
  lemma {:induction false} VerticalSpeedSign(previousAltitude: real, previousTimeNanos: int,
                                             altitude: real, nowNs: int)
    requires previousTimeNanos != 0 && previousTimeNanos < nowNs
    ensures VerticalSpeed(previousAltitude, previousTimeNanos, altitude, nowNs) > 0.0
            <==> altitude > previousAltitude
    ensures VerticalSpeed(previousAltitude, previousTimeNanos, altitude, nowNs) == 0.0
            <==> altitude == previousAltitude
  {
  }

  class Sensor {
    var previousAltitude: real
    var previousTimeNanos: int
    /** Every state written to memory, oldest first. */
    var published: seq<State>

    constructor ()
      ensures previousAltitude == 0.0 && previousTimeNanos == 0 && published == []
    {
      previousAltitude := 0.0;
      previousTimeNanos := 0;
      published := [];
    }

    /** `step`: nothing happens without a ready connector and a sample. */
    method Step(connectorReady: bool, telemetry: Option<TelemetryData>, nowNs: int)
      modifies this
      ensures !connectorReady || telemetry.None? ==> unchanged(this)
      ensures connectorReady && telemetry.Some? ==>
                published == old(published) + [StateOf(telemetry.value,
                  VerticalSpeed(old(previousAltitude), old(previousTimeNanos), telemetry.value.altitude, nowNs))]
                && previousAltitude == telemetry.value.altitude && previousTimeNanos == nowNs
    {
      if !connectorReady {
        return;
      }
      if telemetry.None? {
        return;
      }
      var sample := telemetry.value;
      var verticalSpeedFpm := 0.0;
      if previousTimeNanos != 0 {
        var elapsed := nowNs - previousTimeNanos;
        if elapsed > 0 {
          verticalSpeedFpm := ClimbRate(sample.altitude - previousAltitude, elapsed);
        }
      }
      previousAltitude := sample.altitude;
      previousTimeNanos := nowNs;
      published := published + [StateOf(sample, verticalSpeedFpm)];
    }
  }
}
