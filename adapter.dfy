/**
 * The simulator adapter (`adapter/SimConnectAdapter.java`): `read` turns the
 * latest raw sample into domain telemetry with a derived vertical speed, and
 * `write` scales a command's degrees into the simulator's surface units.  The
 * native service's own connection flag is a field the service sets; its
 * `actuateSurfaces` calls are recorded.
 */
module Adapter {
  import opened Wrappers
  import opened Domain
  import opened Commands
  import opened Sensing
  import opened Actuation

  /** `read`'s vertical speed: only with a positive elapsed time and a non-zero previous altitude. */
  function AdapterVerticalSpeed(previousAltitude: real, previousTimeNanos: int, altitude: real, nowNs: int): (fpm: real)
    ensures nowNs <= previousTimeNanos || previousAltitude == 0.0 ==> fpm == 0.0
    ensures previousTimeNanos < nowNs && previousAltitude != 0.0 ==>
              fpm * ((nowNs - previousTimeNanos) as real) == (altitude - previousAltitude) * 60.0 * NanosPerSecond
  {
    if nowNs - previousTimeNanos > 0 && previousAltitude != 0.0 then
      ClimbRate(altitude - previousAltitude, nowNs - previousTimeNanos)
    else 0.0
  }

  /** The telemetry `read` returns for a sample: bank becomes roll, yaw is 0, rate is the vertical speed. */
  function TelemetryOf(t: TelemetryData, verticalSpeedFpm: real): (r: Telemetry)
    ensures r.altitude == t.altitude && r.speed == t.airspeed && r.heading == t.heading
    ensures r.pitch == t.pitch && r.roll == t.bank && r.yaw == 0.0 && r.rate == verticalSpeedFpm
  {
    Telemetry(t.altitude, t.airspeed, t.heading, t.pitch, t.bank, 0.0, verticalSpeedFpm)
  }

  /** `write`'s conversion: roll/30 to aileron, pitch/20 to elevator, rudder/30, throttle as is. */
  function Deflections(c: Command): (r: SurfaceCall)
    ensures r.aileron * 30.0 == c.roll && r.elevator * 20.0 == c.pitch
    ensures r.rudder * 30.0 == c.rudder && r.throttle == c.throttle
  {
    SurfaceCall(c.roll / 30.0, c.pitch / 20.0, c.rudder / 30.0, c.throttle)
  }

  /** A command inside `Command.clamp`'s ranges becomes deflections in [-1, 1] and a throttle in [0, 1]. */
  lemma {:induction false} ClampedCommandFitsSurfaces(c: Command)
    requires InRange(c)
    ensures var r := Deflections(c);
            -1.0 <= r.aileron <= 1.0 && -1.0 <= r.elevator <= 1.0 && -1.0 <= r.rudder <= 1.0
            && 0.0 <= r.throttle <= 1.0
  {
  }

  /** The scaling loses nothing: the command can be read back from the deflections. */
  lemma {:induction false} DeflectionsDetermineCommand(c: Command, d: Command)
    requires Deflections(c) == Deflections(d)
    ensures c == d
  {
  }

  class SimConnectAdapter {
    /** The last sample the service delivered, if any. */
    var latest: Option<TelemetryData>
    var connected: bool
    /** `simConnect.isConnected()`. */
    var serviceConnected: bool
    var previousAltitude: real
    var previousTimeNanos: int
    /** Every `actuateSurfaces` call, oldest first. */
    var surfaces: seq<SurfaceCall>

    constructor (nowNs: int, serviceConnected: bool)
      ensures latest == None && !connected && this.serviceConnected == serviceConnected
      ensures previousAltitude == 0.0 && previousTimeNanos == nowNs && surfaces == []
    {
      latest := None;
      connected := false;
      this.serviceConnected := serviceConnected;
      previousAltitude := 0.0;
      previousTimeNanos := nowNs;
      surfaces := [];
    }

    predicate IsAvailable()
      reads this
    {
      connected && serviceConnected
    }

    /** `isReady` tests the same condition as `isAvailable`. */
    predicate IsReady()
      reads this
    {
      connected && serviceConnected
    }

    lemma ReadyMeansAvailable()
      ensures IsReady() <==> IsAvailable()
    {
    }

    method UpdateTelemetry(telemetry: Option<TelemetryData>)
      modifies this
      ensures latest == telemetry
      ensures connected == old(connected) && serviceConnected == old(serviceConnected)
      ensures previousAltitude == old(previousAltitude) && previousTimeNanos == old(previousTimeNanos)
      ensures surfaces == old(surfaces)
    {
      latest := telemetry;
    }

    method SetConnected(connected: bool)
      modifies this
      ensures this.connected == connected
      ensures latest == old(latest) && serviceConnected == old(serviceConnected)
      ensures previousAltitude == old(previousAltitude) && previousTimeNanos == old(previousTimeNanos)
      ensures surfaces == old(surfaces)
    {
      this.connected := connected;
    }

    /** `read`: neutral telemetry and no change before the first sample. */
    method Read(nowNs: int) returns (t: Telemetry)
      modifies this
      ensures latest.None? ==> t == NeutralTelemetry && unchanged(this)
      ensures latest.Some? ==>
                t == TelemetryOf(latest.value,
                       AdapterVerticalSpeed(old(previousAltitude), old(previousTimeNanos), latest.value.altitude, nowNs))
                && previousAltitude == latest.value.altitude && previousTimeNanos == nowNs
      ensures latest == old(latest) && connected == old(connected) && serviceConnected == old(serviceConnected)
      ensures surfaces == old(surfaces)
    {
      if latest.None? {
        return NeutralTelemetry;
      }
      var sample := latest.value;
      var elapsed := nowNs - previousTimeNanos;
      var verticalSpeedFpm := 0.0;
      if elapsed > 0 && previousAltitude != 0.0 {
        verticalSpeedFpm := ClimbRate(sample.altitude - previousAltitude, elapsed);
      }
      previousAltitude := sample.altitude;
      previousTimeNanos := nowNs;
      t := TelemetryOf(sample, verticalSpeedFpm);
    }

    /** `write`: one scaled surface call when ready, nothing otherwise. */
    method Write(command: Command)
      modifies this
      ensures !IsReady() ==> surfaces == old(surfaces)
      ensures IsReady() ==> surfaces == old(surfaces) + [Deflections(command)]
      ensures latest == old(latest) && connected == old(connected) && serviceConnected == old(serviceConnected)
      ensures previousAltitude == old(previousAltitude) && previousTimeNanos == old(previousTimeNanos)
    {
      if !IsReady() {
        return;
      }
      var aileron := command.roll / 30.0;
      var elevator := command.pitch / 20.0;
      var rudder := command.rudder / 30.0;
      var throttle := command.throttle;
      surfaces := surfaces + [SurfaceCall(aileron, elevator, rudder, throttle)];
    }
  }
}
