/** The repetition detector and session lifecycle of workout.cpp.

    A three-state machine watches the vertical velocity: an upward
    movement faster than VELOCITY_THRESHOLD starts a rep, a velocity that
    falls below REP_COMPLETE_THRESHOLD ends the lift, and a velocity that
    then settles near zero completes the rep, which is counted when the
    previous one lies more than MIN_REP_TIME_MS back. */
module Workout {

  import opened Config

  datatype RepState = Idle | MovingUp | MovingDown

  /** Every static of workout.cpp: the `WorkoutData` record (repCount,
      peakVelocity, elapsedTime in seconds, isRunning) and the detector's
      own state (repState, the current rep's peak, startTime, lastRepTime). */
  datatype Session = Session(
    repCount: nat,
    peakVelocity: real,
    elapsedTime: nat,
    isRunning: bool,
    repState: RepState,
    repPeak: real,
    startTime: Millis,
    lastRepTime: Millis)

  /** What `workoutReset` leaves behind. */
  const Cleared: Session := Session(0, 0.0, 0, false, Idle, 0.0, 0, 0)

  /** What `workoutStart` leaves behind: a cleared session that runs from `now`. */
  function Started(now: Millis): (s: Session)
    ensures s.isRunning && s.startTime == now
    ensures s.(isRunning := false, startTime := 0) == Cleared
  {
    Cleared.(isRunning := true, startTime := now)
  }

  function MaxReal(a: real, b: real): real
  {
    if b > a then b else a
  }

  /** The sample completes a rep that is counted: the detector is in the
      descending phase, the velocity has settled and the debounce has passed. */
  predicate CountsRep(s: Session, v: real, now: Millis)
  {
    && s.isRunning
    && s.repState == MovingDown
    && AbsReal(v) < RepCompleteThreshold
    && Since(now, s.lastRepTime) > MinRepTimeMs
  }

  /** `workoutProcessVelocity(v)` at time `now`. */
  function Step(s: Session, v: real, now: Millis): (t: Session)
    // a stopped workout ignores every sample
    ensures !s.isRunning ==> t == s
    // the lifecycle fields are never touched
    ensures t.isRunning == s.isRunning && t.startTime == s.startTime && t.elapsedTime == s.elapsedTime
    // idle: a rep starts exactly when the velocity exceeds the threshold, with that velocity as its peak
    ensures s.isRunning && s.repState == Idle ==>
      && (t.repState == MovingUp <==> v > VelocityThreshold)
      && (t.repState == MovingUp ==> t == s.(repState := MovingUp, repPeak := v))
      && (t.repState != MovingUp ==> t == s)
    // lifting: the peak follows the maximum, and the lift ends exactly when the velocity drops below 0.05
    ensures s.isRunning && s.repState == MovingUp ==>
      && t.repPeak == MaxReal(s.repPeak, v)
      && t.repState != Idle
      && (t.repState == MovingDown <==> v < RepCompleteThreshold)
      && t.repCount == s.repCount && t.peakVelocity == s.peakVelocity && t.lastRepTime == s.lastRepTime
    // descending: an unsettled sample changes nothing; a settled one always returns to idle
    ensures s.isRunning && s.repState == MovingDown ==>
      if AbsReal(v) < RepCompleteThreshold then t.repState == Idle && t.repPeak == 0.0 else t == s
    // a rep is counted exactly when CountsRep holds, and then only one
    ensures t.repCount == if CountsRep(s, v, now) then s.repCount + 1 else s.repCount
    ensures CountsRep(s, v, now) ==>
      t.lastRepTime == now && t.peakVelocity == MaxReal(s.peakVelocity, s.repPeak)
    ensures !CountsRep(s, v, now) ==>
      t.lastRepTime == s.lastRepTime && t.peakVelocity == s.peakVelocity
    // the best peak never falls, and the relations between the fields survive
    ensures t.peakVelocity >= s.peakVelocity
    ensures Consistent(s) ==> Consistent(t)
  {
    if !s.isRunning then s
    else match s.repState
      case Idle =>
        if v > VelocityThreshold then s.(repState := MovingUp, repPeak := v) else s
      case MovingUp =>
        var peak := if v > s.repPeak then v else s.repPeak;
        if v < RepCompleteThreshold then s.(repPeak := peak, repState := MovingDown)
        else s.(repPeak := peak)
      case MovingDown =>
        if AbsReal(v) < RepCompleteThreshold then
          var counted :=
            if Since(now, s.lastRepTime) > MinRepTimeMs then
              s.(repCount := s.repCount + 1, lastRepTime := now,
                 peakVelocity := if s.repPeak > s.peakVelocity then s.repPeak else s.peakVelocity)
            else s;
          counted.(repState := Idle, repPeak := 0.0)
        else s
  }

  /** `workoutUpdateTime()` at time `now`. */
  function Tick(s: Session, now: Millis): (t: Session)
    ensures !s.isRunning ==> t == s
    // only the elapsed time changes, to the whole seconds since the start
    ensures t == s.(elapsedTime := t.elapsedTime)
    ensures s.isRunning ==>
      t.elapsedTime * 1000 <= Since(now, s.startTime) < (t.elapsedTime + 1) * 1000
  {
    if !s.isRunning then s
    else s.(elapsedTime := Since(now, s.startTime) / 1000)
  }

  /** The relations between the fields that every reachable session keeps:
      a rep in progress has a peak above the start threshold, an idle
      detector has none, and the best peak is set by the first counted rep. */
  predicate Consistent(s: Session)
  {
    && (s.repState == Idle ==> s.repPeak == 0.0)
    && (s.repState != Idle ==> s.repPeak > VelocityThreshold)
    && (s.repCount == 0 ==> s.peakVelocity == 0.0)
    && (s.repCount > 0 ==> s.peakVelocity > VelocityThreshold)
  }

  /** Reset, start and stop all leave a consistent session. */
  lemma LifecycleIsConsistent(s: Session, now: Millis)
    requires Consistent(s)
    ensures Consistent(Cleared) && Consistent(Started(now))
    ensures Consistent(s.(isRunning := false))
    ensures Consistent(Tick(s, now))
  {
  }

  // ---- sequences of samples ----

  datatype Sample = Sample(velocity: real, at: Millis)

  /** The session after feeding `xs` to `workoutProcessVelocity` in order. */
  function Run(s: Session, xs: seq<Sample>): Session
    decreases |xs|
  {
    if xs == [] then s else Run(Step(s, xs[0].velocity, xs[0].at), xs[1..])
  }

  lemma {:induction false} RunWhileStopped(s: Session, xs: seq<Sample>)
    requires !s.isRunning
    ensures Run(s, xs) == s
    decreases |xs|
  {
    if xs != [] {
      RunWhileStopped(Step(s, xs[0].velocity, xs[0].at), xs[1..]);
    }
  }

  lemma {:induction false} RunKeepsConsistent(s: Session, xs: seq<Sample>)
    requires Consistent(s)
    ensures Consistent(Run(s, xs))
    decreases |xs|
  {
    if xs != [] {
      RunKeepsConsistent(Step(s, xs[0].velocity, xs[0].at), xs[1..]);
    }
  }

  lemma {:induction false} RunPeakNeverFalls(s: Session, xs: seq<Sample>)
    ensures Run(s, xs).peakVelocity >= s.peakVelocity
    ensures Run(s, xs).repCount >= s.repCount
    decreases |xs|
  {
    if xs != [] {
      RunPeakNeverFalls(Step(s, xs[0].velocity, xs[0].at), xs[1..]);
    }
  }

  /** How far the detector has advanced through the current rep. */
  function Phase(r: RepState): nat
  {
    match r
    case Idle => 0
    case MovingUp => 1
    case MovingDown => 2
  }

  /** A rep takes at least three samples: one that starts the lift, one
      that ends it and one that settles. So `n` samples fed to an idle
      detector count at most `n / 3` reps. */
  lemma {:induction false} RunCountsAtMostOneRepPerThreeSamples(s: Session, xs: seq<Sample>)
    ensures 3 * Run(s, xs).repCount + Phase(Run(s, xs).repState)
            <= 3 * s.repCount + Phase(s.repState) + |xs|
    ensures s.repState == Idle ==> Run(s, xs).repCount <= s.repCount + |xs| / 3
    decreases |xs|
  {
    if xs != [] {
      RunCountsAtMostOneRepPerThreeSamples(Step(s, xs[0].velocity, xs[0].at), xs[1..]);
    }
  }

  /** Without a sample that settles near zero no rep is ever counted,
      however long the movement lasts. */
  lemma {:induction false} RunWithoutSettlingCountsNothing(s: Session, xs: seq<Sample>)
    requires forall i :: 0 <= i < |xs| ==> AbsReal(xs[i].velocity) >= RepCompleteThreshold
    ensures Run(s, xs).repCount == s.repCount
    ensures Run(s, xs).peakVelocity == s.peakVelocity
    decreases |xs|
  {
    if xs != [] {
      RunWithoutSettlingCountsNothing(Step(s, xs[0].velocity, xs[0].at), xs[1..]);
    }
  }

  /** The static workout state of workout.cpp, updated in place. */
  class Tracker {
    var repCount: nat
    var peakVelocity: real
    var elapsedTime: nat
    var isRunning: bool
    var repState: RepState
    var currentRepPeakVel: real
    var startTime: Millis
    var lastRepTime: Millis

    function Snapshot(): Session
      reads this
    {
      Session(repCount, peakVelocity, elapsedTime, isRunning,
              repState, currentRepPeakVel, startTime, lastRepTime)
    }

    /** `workoutInit`, which resets. */
    constructor ()
      ensures Snapshot() == Cleared
    {
      repCount, peakVelocity, elapsedTime, isRunning := 0, 0.0, 0, false;
      repState, currentRepPeakVel, startTime, lastRepTime := Idle, 0.0, 0, 0;
    }

    method Reset()
      modifies this
      ensures Snapshot() == Cleared
    {
      repCount := 0;
      peakVelocity := 0.0;
      elapsedTime := 0;
      isRunning := false;
      repState := Idle;
      currentRepPeakVel := 0.0;
      startTime := 0;
      lastRepTime := 0;
    }

    method Start(now: Millis)
      modifies this
      ensures Snapshot() == Started(now)
    {
      Reset();
      isRunning := true;
      startTime := now;
    }

    /** Stops counting and keeps the results. */
    method Stop()
      modifies this
      ensures Snapshot() == old(Snapshot()).(isRunning := false)
    {
      isRunning := false;
    }

    method IsRunning() returns (running: bool)
      ensures running == isRunning
    {
      running := isRunning;
    }

    method ProcessVelocity(velocity: real, now: Millis)
      modifies this
      ensures Snapshot() == Step(old(Snapshot()), velocity, now)
    {
      if !isRunning {
        return;
      }
      match repState {
        case Idle =>
          if velocity > VelocityThreshold {
            repState := MovingUp;
            currentRepPeakVel := velocity;
          }
        case MovingUp =>
          if velocity > currentRepPeakVel {
            currentRepPeakVel := velocity;
          }
          if velocity < RepCompleteThreshold {
            repState := MovingDown;
          }
        case MovingDown =>
          if AbsReal(velocity) < RepCompleteThreshold {
            if Since(now, lastRepTime) > MinRepTimeMs {
              repCount := repCount + 1;
              lastRepTime := now;
              if currentRepPeakVel > peakVelocity {
                peakVelocity := currentRepPeakVel;
              }
            }
            repState := Idle;
            currentRepPeakVel := 0.0;
          }
      }
    }

    method UpdateTime(now: Millis)
      modifies this
      ensures Snapshot() == Tick(old(Snapshot()), now)
    {
      if !isRunning {
        return;
      }
      var currentElapsed := Since(now, startTime) / 1000;
      if currentElapsed != elapsedTime {
        elapsedTime := currentElapsed;
      }
    }
  }

}
