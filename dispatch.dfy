/** One supervisory control cycle as a function of the supervisor's state:
    the goal check on the pose from before the cycle, then odometry, then the
    controller, then the motion command. The class in supervisor.dfy is proved
    to follow these functions step for step. */
module Dispatch {
  import opened Numerics
  import opened Poses
  import opened Odometry

  datatype Option<+T> = None | Some(value: T)

  /** How a cycle ends: it ran to completion, or it stopped at the goal
      check (the source raises an exception for the latter). */
  datatype Outcome = Continued | GoalReached

  /** A unicycle command: linear velocity and angular velocity. */
  datatype Command = Command(v: real, omega: real)

  /** The go-to-goal controller, reading the pose estimate and the goal.
      `Some(c)` means it called the supervisor's output setter with `c`,
      `None` that it left the outputs alone. */
  type ControlLaw = (PoseTuple, Point) -> Option<Command>

  /** What happens in a cycle, in order. */
  datatype Event =
    | ClockAdvanced(dt: real)
    | GoalChecked(distance: real)
    | EncodersRead(ticks: Ticks)
    | PoseUpdated(pose: PoseTuple)
    | ControllerExecuted
    | OutputsSet(command: Command)
    | MotionCommanded(command: Command)

  /** What the supervisor is constructed with and never changes. */
  datatype Setup = Setup(geometry: Geometry, goal: Point, dStop: real, controller: ControlLaw)

  /** What the supervisor changes from cycle to cycle. */
  datatype State = State(time: real, prevTicks: Ticks, pose: PoseTuple, output: Command)

  datatype Cycle = Cycle(outcome: Outcome, after: State, events: seq<Event>)

  /** One control cycle (`execute`), given the encoder totals the robot would
      report if they were read in this cycle. */
  function Execute(lib: Lib, setup: Setup, s: State, reading: Ticks): (c: Cycle)
    requires setup.geometry.Valid()
    // the check comes first and looks at the pose from before this cycle;
    // it is strict, so a pose exactly d_stop away does not stop the cycle
    ensures var distance := lib.distance((s.pose.0, s.pose.1), setup.goal);
            && |c.events| >= 1
            && c.events[0] == GoalChecked(distance)
            && (c.outcome == GoalReached <==> distance < setup.dStop)
            && (distance == setup.dStop ==> c.outcome == Continued)
    // reaching the goal has no side effect at all
    ensures c.outcome == GoalReached ==> c.after == s && |c.events| == 1
    // otherwise: odometry, then the controller, then the motion command with
    // the outputs as the controller left them
    ensures c.outcome == Continued ==>
              && c.after.time == s.time
              && |c.events| == (if setup.controller(c.after.pose, setup.goal).Some? then 6 else 5)
              && (c.after.pose, c.after.prevTicks) == Update(lib, setup.geometry, s.pose, s.prevTicks, reading)
              && c.events[1..4] == [EncodersRead(reading), PoseUpdated(c.after.pose), ControllerExecuted]
              && c.after.output == (match setup.controller(c.after.pose, setup.goal)
                                    case Some(command) => command
                                    case None => s.output)
              && c.events[|c.events| - 1] == MotionCommanded(c.after.output)
  {
    var distance := lib.distance((s.pose.0, s.pose.1), setup.goal);
    if distance < setup.dStop then
      Cycle(GoalReached, s, [GoalChecked(distance)])
    else
      var (pose, baseline) := Update(lib, setup.geometry, s.pose, s.prevTicks, reading);
      var decision := setup.controller(pose, setup.goal);
      var output := if decision.Some? then decision.value else s.output;
      var setEvents := if decision.Some? then [OutputsSet(decision.value)] else [];
      Cycle(Continued, State(s.time, baseline, pose, output),
            [GoalChecked(distance), EncodersRead(reading), PoseUpdated(pose), ControllerExecuted]
            + setEvents + [MotionCommanded(output)])
  }

  /** One simulation time increment (`step`): the clock advances by `dt`,
      then exactly one control cycle runs. */
  function Step(lib: Lib, setup: Setup, s: State, dt: real, reading: Ticks): (c: Cycle)
    requires setup.geometry.Valid()
    ensures c.after.time == s.time + dt
    ensures |c.events| >= 2 && c.events[0] == ClockAdvanced(dt) && c.events[1].GoalChecked?
    ensures forall i :: 2 <= i < |c.events| ==> !c.events[i].GoalChecked? && !c.events[i].ClockAdvanced?
  {
    var c := Execute(lib, setup, s.(time := s.time + dt), reading);
    Cycle(c.outcome, c.after, [ClockAdvanced(dt)] + c.events)
  }

  /** Reaching the goal is terminal: a further step makes the same goal check
      on the same pose, reaches the goal again and changes only the clock. */
  lemma GoalReachedIsTerminal(lib: Lib, setup: Setup, s: State, dt: real, reading: Ticks,
                              dt2: real, reading2: Ticks)
    requires setup.geometry.Valid()
    requires Step(lib, setup, s, dt, reading).outcome == GoalReached
    ensures var c := Step(lib, setup, s, dt, reading);
            var n := Step(lib, setup, c.after, dt2, reading2);
            && n.outcome == GoalReached
            && n.after == c.after.(time := c.after.time + dt2)
            && n.events[1..] == c.events[1..]
  {
  }

  /** One tick of the simulation that drives the supervisor: the time
      increment and the encoder totals at that moment. */
  datatype Input = Input(dt: real, reading: Ticks)

  /** The driver: call `step` once per input and stop at the first cycle that
      reaches the goal. */
  function Run(lib: Lib, setup: Setup, s: State, inputs: seq<Input>): (c: Cycle)
    requires setup.geometry.Valid()
    // a run that reaches the goal stops right after the check that fired
    ensures c.outcome == GoalReached ==>
              && inputs != []
              && |c.events| >= 2
              && c.events[|c.events| - 1].GoalChecked?
              && c.events[|c.events| - 2].ClockAdvanced?
    ensures inputs == [] ==> c.after == s && c.events == []
    decreases |inputs|
  {
    if inputs == [] then Cycle(Continued, s, [])
    else
      var first := Step(lib, setup, s, inputs[0].dt, inputs[0].reading);
      if first.outcome == GoalReached then first
      else
        var rest := Run(lib, setup, first.after, inputs[1..]);
        Cycle(rest.outcome, rest.after, first.events + rest.events)
  }

  function TotalTime(inputs: seq<Input>): real
  {
    if inputs == [] then 0.0 else inputs[0].dt + TotalTime(inputs[1..])
  }

  function Readings(inputs: seq<Input>): seq<Ticks>
  {
    if inputs == [] then [] else [inputs[0].reading] + Readings(inputs[1..])
  }

  /** The encoder readings consumed, in the order they were consumed. */
  function ReadingsConsumed(events: seq<Event>): seq<Ticks>
  {
    if events == [] then []
    else (if events[0].EncodersRead? then [events[0].ticks] else []) + ReadingsConsumed(events[1..])
  }

  /** The number of odometry updates. */
  function PoseUpdates(events: seq<Event>): nat
  {
    if events == [] then 0
    else (if events[0].PoseUpdated? then 1 else 0) + PoseUpdates(events[1..])
  }

  lemma {:induction false} EventCountsDistribute(a: seq<Event>, b: seq<Event>)
    ensures ReadingsConsumed(a + b) == ReadingsConsumed(a) + ReadingsConsumed(b)
    ensures PoseUpdates(a + b) == PoseUpdates(a) + PoseUpdates(b)
    decreases |a|
  {
    if a != [] {
      assert (a + b)[1..] == a[1..] + b;
      EventCountsDistribute(a[1..], b);
    } else {
      assert a + b == b;
    }
  }

  /** A completed cycle consumes exactly one encoder reading and updates the
      pose exactly once. */
  lemma ContinuedCycleCounts(lib: Lib, setup: Setup, s: State, dt: real, reading: Ticks)
    requires setup.geometry.Valid()
    requires Step(lib, setup, s, dt, reading).outcome == Continued
    ensures var events := Step(lib, setup, s, dt, reading).events;
            ReadingsConsumed(events) == [reading] && PoseUpdates(events) == 1
  {
    var events := Step(lib, setup, s, dt, reading).events;
    assert events[2] == EncodersRead(reading) && events[3].PoseUpdated?;
    assert forall i :: 0 <= i < |events[5..]| ==> events[5..][i].OutputsSet? || events[5..][i].MotionCommanded?;
    NoOdometryEvents(events[5..]);
    assert events[4..][1..] == events[5..];
    assert events[3..][1..] == events[4..];
    assert events[2..][1..] == events[3..];
    assert events[1..][1..] == events[2..];
    assert ReadingsConsumed(events[3..]) == [] && PoseUpdates(events[3..]) == 1;
    assert ReadingsConsumed(events[2..]) == [reading] && PoseUpdates(events[2..]) == 1;
  }

  lemma {:induction false} NoOdometryEvents(events: seq<Event>)
    requires forall i :: 0 <= i < |events| ==> events[i].OutputsSet? || events[i].MotionCommanded?
    ensures ReadingsConsumed(events) == [] && PoseUpdates(events) == 0
    decreases |events|
  {
    if events != [] {
      NoOdometryEvents(events[1..]);
    }
  }

  /** A driver run in which the goal is never reached advances the clock by
      the sum of the increments, takes every encoder reading exactly once and
      in order, updates the pose once per step, leaves the last reading as the
      baseline, and ends with the heading a single update from the start to
      that last reading would give: the baseline bookkeeping loses nothing. */
  lemma {:induction false} RunWithoutGoal(lib: Lib, setup: Setup, s: State, inputs: seq<Input>)
    requires setup.geometry.Valid()
    requires Run(lib, setup, s, inputs).outcome == Continued
    ensures var c := Run(lib, setup, s, inputs);
            && c.after.time == s.time + TotalTime(inputs)
            && ReadingsConsumed(c.events) == Readings(inputs)
            && PoseUpdates(c.events) == |inputs|
            && (inputs != [] ==>
                  var last := inputs[|inputs| - 1].reading;
                  && c.after.prevTicks == last
                  && c.after.pose.2 == Update(lib, setup.geometry, s.pose, s.prevTicks, last).0.2)
    decreases |inputs|
  {
    if inputs != [] {
      var first := Step(lib, setup, s, inputs[0].dt, inputs[0].reading);
      var rest := Run(lib, setup, first.after, inputs[1..]);
      assert first.outcome == Continued;
      ContinuedCycleCounts(lib, setup, s, inputs[0].dt, inputs[0].reading);
      RunWithoutGoal(lib, setup, first.after, inputs[1..]);
      EventCountsDistribute(first.events, rest.events);
      if |inputs| > 1 {
        var last := inputs[|inputs| - 1].reading;
        assert inputs[1..][|inputs[1..]| - 1].reading == last;
        HeadingIsPathIndependent(lib, setup.geometry, s.pose, s.prevTicks, inputs[0].reading, last);
      }
    }
  }

  /** The check looks at the pose from before the cycle's odometry: a cycle
      that carries the robot into the stop radius still runs the controller
      and commands motion, and it is the next step that reports the goal,
      with no further odometry. */
  lemma ArrivalIsReportedOneCycleLate(lib: Lib, setup: Setup, s: State, reading: Ticks,
                                      dt: real, nextReading: Ticks)
    requires setup.geometry.Valid()
    requires lib.distance((s.pose.0, s.pose.1), setup.goal) >= setup.dStop
    ensures var c := Execute(lib, setup, s, reading);
            && c.outcome == Continued
            && (lib.distance((c.after.pose.0, c.after.pose.1), setup.goal) < setup.dStop ==>
                  var next := Step(lib, setup, c.after, dt, nextReading);
                  && next.outcome == GoalReached
                  && next.after == c.after.(time := c.after.time + dt)
                  && PoseUpdates(next.events) == 0)
  {
    var c := Execute(lib, setup, s, reading);
    var next := Step(lib, setup, c.after, dt, nextReading);
    if lib.distance((c.after.pose.0, c.after.pose.1), setup.goal) < setup.dStop {
      assert next.events == [ClockAdvanced(dt), GoalChecked(lib.distance((c.after.pose.0, c.after.pose.1), setup.goal))];
      NoOdometryEvents(next.events[2..]);
      EventCountsDistribute(next.events[..2], []);
    }
  }
}
