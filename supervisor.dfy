/** The supervisor object: clock, tick baseline, pose estimate and control
    outputs, updated in place once per control cycle. Every method is proved
    to do exactly what the corresponding function in Dispatch says. */
module Supervision {
  import opened Numerics
  import opened Poses
  import opened Odometry
  import opened Dispatch

  class Supervisor {
    /** Internal clock, in seconds. */
    var time: real

    /** pi, cos, sin and the distance function the supervisor uses. */
    const lib: Lib

    const robotWheelRadius: real
    const robotWheelBaseLength: real
    const wheelEncoderTicksPerRevolution: int
    /** Encoder totals consumed by the last odometry update. */
    var prevTicksLeft: int
    var prevTicksRight: int

    const goToGoalController: ControlLaw

    const goal: Point
    const dStop: real

    /** The pose estimate; the object is kept, its fields are updated. */
    const estimatedPose: Pose

    var vOutput: real
    var omegaOutput: real

    /** Everything the supervisor has done, in order. */
    ghost var log: seq<Event>

    /** The configuration, which no method changes. */
    function Config(): Setup
    {
      Setup(Geometry(robotWheelRadius, robotWheelBaseLength, wheelEncoderTicksPerRevolution),
            goal, dStop, goToGoalController)
    }

    /** The odometry divides by the wheel base and by the ticks per revolution.
        This is a condition on the constant configuration only. */
    predicate ValidGeometry()
    {
      Config().geometry.Valid()
    }

    /** The part of the supervisor that changes from cycle to cycle. */
    ghost function Snapshot(): State
      reads this, estimatedPose
    {
      State(time, (prevTicksLeft, prevTicksRight), estimatedPose.Unpack(), Command(vOutput, omegaOutput))
    }

    constructor (lib: Lib, controller: ControlLaw, wheelRadius: real, wheelBaseLength: real,
                 wheelEncoderTicksPerRev: int, initialPose: Pose,
                 goal: Point := (0.0, 0.0), dStop: real := 0.05)
      requires wheelBaseLength != 0.0 && wheelEncoderTicksPerRev != 0
      ensures ValidGeometry()
      ensures this.lib == lib && estimatedPose == initialPose
      ensures Config() == Setup(Geometry(wheelRadius, wheelBaseLength, wheelEncoderTicksPerRev), goal, dStop, controller)
      ensures Snapshot() == State(0.0, (0, 0), initialPose.Unpack(), Command(0.0, 0.0))
      ensures log == []
    {
      this.time := 0.0;
      this.lib := lib;
      this.robotWheelRadius := wheelRadius;
      this.robotWheelBaseLength := wheelBaseLength;
      this.wheelEncoderTicksPerRevolution := wheelEncoderTicksPerRev;
      this.prevTicksLeft := 0;
      this.prevTicksRight := 0;
      this.goToGoalController := controller;
      this.goal := goal;
      this.dStop := dStop;
      this.estimatedPose := initialPose;
      this.vOutput := 0.0;
      this.omegaOutput := 0.0;
      this.log := [];
    }

    /** Advances the clock by `dt`, then runs exactly one control cycle;
        `reading` is what the wheel encoders report if they are read. */
    method Step(dt: real, reading: Ticks) returns (outcome: Outcome)
      requires ValidGeometry()
      modifies this, estimatedPose
      ensures var c := Dispatch.Step(lib, Config(), old(Snapshot()), dt, reading);
              outcome == c.outcome && Snapshot() == c.after && log == old(log) + c.events
    {
      time := time + dt;
      log := log + [ClockAdvanced(dt)];
      outcome := Execute(reading);
    }

    /** One control cycle: goal check on the current estimate, odometry,
        controller, motion command. */
    method Execute(reading: Ticks) returns (outcome: Outcome)
      requires ValidGeometry()
      modifies this, estimatedPose
      ensures var c := Dispatch.Execute(lib, Config(), old(Snapshot()), reading);
              outcome == c.outcome && Snapshot() == c.after && log == old(log) + c.events
    {
      var distance := lib.distance(estimatedPose.Position(), goal);
      log := log + [GoalChecked(distance)];
      if distance < dStop {
        return GoalReached;
      }

      UpdateOdometry(reading);

      log := log + [ControllerExecuted];
      var decision := goToGoalController(estimatedPose.Unpack(), goal);
      if decision.Some? {
        SetOutputs(decision.value.v, decision.value.omega);
      }

      // set_unicycle_motion on the robot interface
      log := log + [MotionCommanded(Command(vOutput, omegaOutput))];
      return Continued;
    }

    /** Stores the control outputs; no range checks. */
    method SetOutputs(v: real, omega: real)
      modifies this
      ensures vOutput == v && omegaOutput == omega
      ensures time == old(time) && prevTicksLeft == old(prevTicksLeft) && prevTicksRight == old(prevTicksRight)
      ensures log == old(log) + [OutputsSet(Command(v, omega))]
    {
      vOutput := v;
      omegaOutput := omega;
      log := log + [OutputsSet(Command(v, omega))];
    }

    /** Dead reckoning from the encoder totals `reading`, after which the
        baseline is `reading`. */
    method UpdateOdometry(reading: Ticks)
      requires ValidGeometry()
      modifies this, estimatedPose
      ensures (estimatedPose.Unpack(), (prevTicksLeft, prevTicksRight))
           == Update(lib, Config().geometry, old(estimatedPose.Unpack()), old((prevTicksLeft, prevTicksRight)), reading)
      ensures time == old(time) && vOutput == old(vOutput) && omegaOutput == old(omegaOutput)
      ensures log == old(log) + [EncodersRead(reading), PoseUpdated(estimatedPose.Unpack())]
    {
      var R := robotWheelRadius;
      var N := wheelEncoderTicksPerRevolution as real;

      // read_wheel_encoders on the robot interface
      var (ticksLeft, ticksRight) := reading;
      log := log + [EncodersRead(reading)];

      var dTicksLeft := ticksLeft - prevTicksLeft;
      var dTicksRight := ticksRight - prevTicksRight;

      var dLeftWheel := 2.0 * lib.pi * R * (dTicksLeft as real / N);
      var dRightWheel := 2.0 * lib.pi * R * (dTicksRight as real / N);
      var dCenter := 0.5 * (dLeftWheel + dRightWheel);

      var (prevX, prevY, prevTheta) := estimatedPose.Unpack();
      var newX := prevX + dCenter * lib.cos(prevTheta);
      var newY := prevY + dCenter * lib.sin(prevTheta);
      var newTheta := prevTheta + (dRightWheel - dLeftWheel) / robotWheelBaseLength;

      // the arithmetic above is the dead-reckoning step Advance
      var geo := Config().geometry;
      assert dLeftWheel == WheelDisplacement(lib, geo, dTicksLeft);
      assert dRightWheel == WheelDisplacement(lib, geo, dTicksRight);
      ghost var moved := Move(lib, geo.wheelBaseLength, (prevX, prevY, prevTheta), dLeftWheel, dRightWheel);
      assert moved.0 == newX && moved.1 == newY && moved.2 == newTheta;
      assert (newX, newY, newTheta) == moved;
      assert (newX, newY, newTheta) == Advance(lib, geo, (prevX, prevY, prevTheta), dTicksLeft, dTicksRight);
      estimatedPose.Update(newX, newY, newTheta);
      log := log + [PoseUpdated((newX, newY, newTheta))];

      prevTicksLeft := ticksLeft;
      prevTicksRight := ticksRight;
    }
  }
}
