/** The velocity integrator of imu.cpp.

    Calibration averages fifty accelerometer polls into a gravity vector.
    Each later sample subtracts that gravity, scales the Z axis to m/s^2,
    integrates it into a velocity that decays by 2% per sample, and snaps a
    velocity below 0.02 m/s to exactly zero. The accelerometer itself is an
    input: one poll is `None` when the sensor had no data ready or the
    read failed, and `Some` of the three axes in g otherwise. */
module Imu {

  import opened Config
  import opened Wrappers

  const CalibrationSamples: nat := 50
  /** Velocity kept from one sample to the next. */
  const Decay: real := 0.98
  /** Largest accepted time step, in seconds. */
  const MaxDt: real := 0.1
  /** m/s: a velocity below this is reported as zero. */
  const ZeroBand: real := 0.02

  datatype Accel = Accel(x: real, y: real, z: real)

  /** Component-wise sum of the successful polls. */
  function SumPolls(polls: seq<Option<Accel>>): Accel
    decreases |polls|
  {
    if polls == [] then Accel(0.0, 0.0, 0.0)
    else
      var s := SumPolls(polls[..|polls| - 1]);
      match polls[|polls| - 1]
      case None => s
      case Some(a) => Accel(s.x + a.x, s.y + a.y, s.z + a.z)
  }

  function Successes(polls: seq<Option<Accel>>): nat
    decreases |polls|
  {
    if polls == [] then 0
    else Successes(polls[..|polls| - 1]) + if polls[|polls| - 1].Some? then 1 else 0
  }

  /** The gravity estimate `imuCalibrate` stores: the sum of the reads that
      succeeded, always divided by the number of polls. */
  function GravityOf(polls: seq<Option<Accel>>): Accel
  {
    var s := SumPolls(polls);
    Accel(s.x / 50.0, s.y / 50.0, s.z / 50.0)
  }

  /** When every poll that succeeds reads the same `g`, the sum is that
      many copies of `g`. With all fifty polls succeeding calibration
      therefore finds `g` exactly; every failed poll pulls the estimate
      toward zero by a fiftieth. */
  lemma {:induction false} SumOfSteadyPolls(polls: seq<Option<Accel>>, g: Accel)
    requires forall i :: 0 <= i < |polls| ==> polls[i] == None || polls[i] == Some(g)
    ensures SumPolls(polls) == Times(Successes(polls), g)
    decreases |polls|
  {
    if polls != [] {
      var init := polls[..|polls| - 1];
      forall i | 0 <= i < |init| ensures init[i] == None || init[i] == Some(g) {
        assert init[i] == polls[i];
      }
      SumOfSteadyPolls(init, g);
      var k := Successes(init);
      if polls[|polls| - 1].Some? {
        assert polls[|polls| - 1] == Some(g);
        assert Successes(polls) == k + 1;
        TimesSucc(k, g);
      }
    }
  }

  /** `k` copies of `g` added up. */
  function Times(k: nat, g: Accel): Accel
  {
    Accel(k as real * g.x, k as real * g.y, k as real * g.z)
  }

  lemma TimesSucc(k: nat, g: Accel)
    ensures Times(k + 1, g) == Accel(Times(k, g).x + g.x, Times(k, g).y + g.y, Times(k, g).z + g.z)
  {
    var r := k as real;
    assert (k + 1) as real == r + 1.0;
    assert (r + 1.0) * g.x == r * g.x + g.x;
    assert (r + 1.0) * g.y == r * g.y + g.y;
    assert (r + 1.0) * g.z == r * g.z + g.z;
  }

  lemma CalibrationOfSteadyDevice(polls: seq<Option<Accel>>, g: Accel)
    requires forall i :: 0 <= i < |polls| ==> polls[i] == None || polls[i] == Some(g)
    ensures GravityOf(polls) == Accel(Successes(polls) as real * g.x / 50.0,
                                      Successes(polls) as real * g.y / 50.0,
                                      Successes(polls) as real * g.z / 50.0)
    ensures Successes(polls) == 50 ==> GravityOf(polls) == g
  {
    SumOfSteadyPolls(polls, g);
    GravityOfCopies(polls, g);
  }

  lemma GravityOfCopies(polls: seq<Option<Accel>>, g: Accel)
    requires SumPolls(polls) == Times(Successes(polls), g)
    ensures GravityOf(polls) == Accel(Successes(polls) as real * g.x / 50.0,
                                      Successes(polls) as real * g.y / 50.0,
                                      Successes(polls) as real * g.z / 50.0)
    ensures Successes(polls) == 50 ==> GravityOf(polls) == g
  {
    var s := SumPolls(polls);
    assert GravityOf(polls) == Accel(s.x / 50.0, s.y / 50.0, s.z / 50.0);
    AverageOfCopies(s, Successes(polls), g);
  }

  /** A fiftieth of `n` copies of `g`; all of `g` when `n` is fifty. */
  lemma AverageOfCopies(s: Accel, n: nat, g: Accel)
    requires s == Times(n, g)
    ensures Accel(s.x / 50.0, s.y / 50.0, s.z / 50.0) ==
      Accel(n as real * g.x / 50.0, n as real * g.y / 50.0, n as real * g.z / 50.0)
    ensures n == 50 ==> Accel(s.x / 50.0, s.y / 50.0, s.z / 50.0) == g
  {
  }

  /** A time step `imuProcess` accepts. */
  predicate AcceptsDt(dt: real)
  {
    0.0 < dt <= MaxDt
  }

  /** One integration step: decay, add the Z-axis linear acceleration over
      `dt`, and report a velocity inside the noise band as exactly zero. */
  function Integrate(v: real, az: real, gravityZ: real, dt: real): (r: real)
    ensures var raw := v * Decay + (az - gravityZ) * AccelScale * dt;
      && (r == 0.0 <==> AbsReal(raw) < ZeroBand)
      && (r != 0.0 ==> r == raw)
    ensures r == 0.0 || AbsReal(r) >= ZeroBand
  {
    var next := v * Decay + (az - gravityZ) * AccelScale * dt;
    if AbsReal(next) < ZeroBand then 0.0 else next
  }

  /** `Integrate` computed in `imuProcess`'s order: the scaled linear
      acceleration first, then the decayed velocity added. */
  lemma IntegrateUnfolds(v: real, az: real, gravityZ: real, dt: real, raw: real)
    requires raw == v * Decay + ((az - gravityZ) * AccelScale) * dt
    ensures Integrate(v, az, gravityZ, dt) == if AbsReal(raw) < ZeroBand then 0.0 else raw
  {
    assert ((az - gravityZ) * AccelScale) * dt == (az - gravityZ) * AccelScale * dt;
  }

  /** The velocity after `n` samples in which the Z axis reads exactly the
      calibrated gravity. */
  function Coast(v: real, gravityZ: real, dt: real, n: nat): real
    decreases n
  {
    if n == 0 then v else Coast(Integrate(v, gravityZ, gravityZ, dt), gravityZ, dt, n - 1)
  }

  /** Drift is bounded: a device that stops accelerating reaches a reported
      velocity of exactly zero, within |v| / 0.0004 samples. Each step
      either snaps into the band or removes 2% of a velocity that is at
      least 0.02 m/s. */
  lemma {:induction false} CoastSettles(v: real, gravityZ: real, dt: real, n: nat)
    requires n as real * 0.0004 >= AbsReal(v)
    ensures Coast(v, gravityZ, dt, n) == 0.0
    decreases n
  {
    if n > 0 {
      var next := Integrate(v, gravityZ, gravityZ, dt);
      assert (gravityZ - gravityZ) * AccelScale * dt == 0.0;
      assert next == 0.0 || next == v * Decay;
      CoastSettles(next, gravityZ, dt, n - 1);
    }
  }

  /** The statics of imu.cpp. */
  class Imu {
    var gravityX: real
    var gravityY: real
    var gravityZ: real
    var isCalibrated: bool
    var currentVelocity: real

    constructor ()
      ensures gravityX == 0.0 && gravityY == 0.0 && gravityZ == 0.0
      ensures !isCalibrated && currentVelocity == 0.0
    {
      gravityX, gravityY, gravityZ := 0.0, 0.0, 0.0;
      isCalibrated := false;
      currentVelocity := 0.0;
    }

    /** `imuCalibrate`, given what each of its fifty polls returned. */
    method Calibrate(polls: seq<Option<Accel>>)
      requires |polls| == CalibrationSamples
      modifies this
      ensures Accel(gravityX, gravityY, gravityZ) == GravityOf(polls)
      ensures isCalibrated && currentVelocity == 0.0
    {
      var sumX, sumY, sumZ := 0.0, 0.0, 0.0;
      for i := 0 to CalibrationSamples
        invariant Accel(sumX, sumY, sumZ) == SumPolls(polls[..i])
      {
        assert polls[..i + 1][..i] == polls[..i];
        match polls[i] {
          case Some(a) =>
            sumX := sumX + a.x;
            sumY := sumY + a.y;
            sumZ := sumZ + a.z;
          case None =>
        }
      }
      assert polls[..CalibrationSamples] == polls;
      gravityX := sumX / 50.0;
      gravityY := sumY / 50.0;
      gravityZ := sumZ / 50.0;
      isCalibrated := true;
      currentVelocity := 0.0;
    }

    method IsCalibrated() returns (calibrated: bool)
      ensures calibrated == isCalibrated
    {
      calibrated := isCalibrated;
    }

    /** `imuProcess(velocity, dt)` with the poll's outcome `read`. The
        caller's `velocity` is written only when a sample is accepted. */
    method Process(read: Option<Accel>, dt: real, velocity: real) returns (ok: bool, velocityOut: real)
      modifies this`currentVelocity
      ensures ok <==> isCalibrated && read.Some? && AcceptsDt(dt)
      ensures ok ==> currentVelocity == Integrate(old(currentVelocity), read.value.z, gravityZ, dt)
      ensures ok ==> velocityOut == currentVelocity
      ensures !ok ==> currentVelocity == old(currentVelocity) && velocityOut == velocity
    {
      velocityOut := velocity;
      if !isCalibrated || read.None? {
        return false, velocityOut;
      }
      var a := read.value;
      if dt <= 0.0 || dt > MaxDt {
        return false, velocityOut;
      }
      var linearAccX := a.x - gravityX;
      var linearAccY := a.y - gravityY;
      var linearAccZ := a.z - gravityZ;
      var linearAcc := linearAccZ * AccelScale;
      var next := currentVelocity * Decay + linearAcc * dt;
      IntegrateUnfolds(currentVelocity, a.z, gravityZ, dt, next);
      if AbsReal(next) < ZeroBand {
        next := 0.0;
      }
      currentVelocity := next;
      velocityOut := currentVelocity;
      ok := true;
    }

    /** Forgets the calibration, the velocity and the gravity estimate. */
    method Reset()
      modifies this
      ensures gravityX == 0.0 && gravityY == 0.0 && gravityZ == 0.0
      ensures !isCalibrated && currentVelocity == 0.0
    {
      isCalibrated := false;
      currentVelocity := 0.0;
      gravityX, gravityY, gravityZ := 0.0, 0.0, 0.0;
    }

    /** The state part of `imuWake`: recalibration is needed, the old
        gravity estimate stays. */
    method Wake()
      modifies this`isCalibrated, this`currentVelocity
      ensures !isCalibrated && currentVelocity == 0.0
    {
      isCalibrated := false;
      currentVelocity := 0.0;
    }
  }

}
