# Supervisory control cycle of a differential-drive robot

A Dafny model of the `Supervisor` of a differential-drive robot simulator and
of the `Pose` it keeps. Once per simulation time increment the supervisor
advances its clock, stops if the current pose estimate is within `d_stop` of
the goal, and otherwise integrates the wheel-encoder tick deltas into a new
pose estimate (dead reckoning), runs the go-to-goal controller, which may set
the unicycle outputs `(v, omega)`, and sends those outputs to the robot.

Layout (one module per file):

- `numerics.dfy` (`Numerics`): points, and `Lib`, which carries `pi`, `cos`,
  `sin` and `linalg.distance` as uninterpreted values (pi only known positive).
- `pose.dfy` (`Poses`): the `Pose` class, fields `x`, `y`, `phi` updated in place.
- `odometry.dfy` (`Odometry`): dead reckoning as functions on `(x, y, phi)`
  triples and tick totals, with its properties as lemmas.
- `dispatch.dfy` (`Dispatch`): one control cycle (`Execute`), one time
  increment (`Step`) and a driver that steps until the goal is reached
  (`Run`) as functions of the supervisor's state, with a trace of events
  (goal check, encoder read, pose update, controller run, outputs set,
  motion command), and the lemmas about sequencing and bookkeeping.
- `supervisor.dfy` (`Supervision`): the `Supervisor` class. Its fields are
  the source's; a ghost `log` records the events. `Step` and `Execute` are
  proved to leave the object in exactly the state, and append exactly the
  events, that `Dispatch.Step` and `Dispatch.Execute` give; `UpdateOdometry`
  is proved to give the pose and baseline of `Odometry.Update`; `SetOutputs`
  states its new outputs and what it leaves alone directly.

The goal-reached exception is the `GoalReached` outcome. Arithmetic is over
`real`. `cos`, `sin`, `pi` and the distance function are parameters; apart
from `pi > 0`, no property depends on their values, except the two worked
scenarios `Odometry.StraightRunScenario` and `Odometry.PivotScenario`, which
assume `cos(0) = 1` and `sin(0) = 0`.

## Model

| member | source | states |
|---|---|---|
| `Poses.Pose.constructor` | week2/Simulator/models/pose.py:6-9 | the three arguments are stored exactly as given, `phi` without any normalisation, and `Unpack` straight after construction gives back `(x, y, phi)` |
| `Poses.Pose.Unpack` | week2/Simulator/models/pose.py:11-12 | returns x, y, phi in that order; it only reads, so it changes no field and two calls in one state agree |
| `Poses.Pose.Position` | models/supervisor.py:64 | the position `(x, y)` of the pose, used by the goal check (`vposition`, assumed) |
| `Poses.Pose.Update` | models/supervisor.py:105 | replaces all three fields at once (`supdate`, assumed) |
| `Odometry.WheelDisplacement` | models/supervisor.py:94-95 | the distance a wheel rolls, 2·pi·R·(delta ticks / N); no ticks give no displacement |
| `Odometry.Move` | models/supervisor.py:96-102 | the pose after the wheels rolled given distances: equal distances keep the heading, opposite distances keep the position |
| `Odometry.Advance` | models/supervisor.py:94-102 | zero tick deltas leave the pose unchanged; equal deltas leave the heading unchanged; opposite deltas (turning on the spot) leave the position unchanged |
| `Odometry.Update` | models/supervisor.py:87-109 | the reading just taken becomes the new baseline; a reading equal to the baseline leaves the pose unchanged |
| `Odometry.OnlyDeltasMatter` | models/supervisor.py:90-91 | the pose update depends only on the differences between reading and baseline: shifting both by the same amounts gives the same pose |
| `Odometry.HeadingIsPathIndependent` | models/supervisor.py:90-109 | two successive updates through an intermediate reading give the same heading as one update straight to the last reading, because each baseline is the previous reading |
| `Odometry.TranslationUsesPreviousHeading` | models/supervisor.py:96-101 | the position moves by the mean wheel displacement along the heading from before the update: two updates with the same total tick delta give the same position whatever they turn |
| `Odometry.DoublingDeltasDoublesDisplacement` | models/supervisor.py:94-102 | doubling both tick deltas doubles the change of x, of y and of the heading |
| `Odometry.HeadingIsNotWrapped` | models/supervisor.py:102 | the heading is a plain sum with no wrapping: from heading pi, one forward revolution of the right wheel ends above pi |
| `Odometry.StraightRunScenario` | models/supervisor.py:94-102 | R = 0.1, N = 20, wheel base 0.5, ten ticks on each wheel from the origin moves 0.1*pi along x with heading 0 |
| `Odometry.PivotScenario` | models/supervisor.py:94-102 | same robot, ten ticks on the left wheel only: the centre moves 0.05*pi along x and the heading becomes -0.2*pi |
| `Dispatch.Execute` | models/supervisor.py:63-74 | the goal check comes first, on the pose from before the cycle, and is strict (exactly `d_stop` away does not stop); when it fires nothing else happens and the state is unchanged; otherwise the encoders are read, the pose and baseline are updated, the controller runs on the new pose, and the motion command carries the outputs the controller left |
| `Dispatch.Step` | models/supervisor.py:52-60 | the clock advances by exactly `dt` whatever the outcome, before the one goal check; exactly one control cycle follows |
| `Dispatch.GoalReachedIsTerminal` | models/supervisor.py:52-65 | once a step reaches the goal, a further step makes the same check on the same pose, reaches the goal again and changes only the clock: there is no way back to running |
| `Dispatch.Run` | models/supervisor.py:65 | not code of this repository: the caller that catches the goal-reached signal, modelled as a driver calling `step` once per input; a run that reaches the goal stops right after the clock advance and the check that fired, and an empty run changes nothing |
| `Dispatch.ContinuedCycleCounts` | models/supervisor.py:68-74 | a completed cycle reads the encoders exactly once and updates the pose exactly once |
| `Dispatch.RunWithoutGoal` | models/supervisor.py:52-109 | a run of steps that never reaches the goal advances the clock by the sum of the increments, consumes every encoder reading once and in order, updates the pose once per step, ends with the last reading as baseline and with the heading one update from the start to that reading would give |
| `Dispatch.ArrivalIsReportedOneCycleLate` | models/supervisor.py:64-68 | a cycle that starts outside the stop radius completes even if its odometry brings the pose inside; the next step then reports the goal, changes only the clock and updates no pose |
| `Supervision.Supervisor.constructor` | models/supervisor.py:14-49 | clock 0, tick baselines 0, both outputs 0, the given pose object as estimate, the given geometry, goal (default origin) and `d_stop` (default 0.05), empty event log |
| `Supervision.Supervisor.Step` | models/supervisor.py:52-60 | new state, outcome and events are those of `Dispatch.Step` on the old state |
| `Supervision.Supervisor.Execute` | models/supervisor.py:63-74 | new state, outcome and events are those of `Dispatch.Execute` on the old state |
| `Supervision.Supervisor.SetOutputs` | models/supervisor.py:77-79 | stores `v` and `omega` unchecked and changes nothing else |
| `Supervision.Supervisor.UpdateOdometry` | models/supervisor.py:82-109 | the pose becomes `Odometry.Update` of the old pose, baseline and reading, the baseline becomes the reading, clock and outputs are unchanged |

## Left out

- The robot interface: `read_wheel_encoders` is the `reading` parameter of `Step`/`Execute`/`UpdateOdometry` (used only when the cycle gets past the goal check), and `set_unicycle_motion` is the `MotionCommanded` event; what the robot does with the command is not modelled.
- The controllers: `GoToGoalController` is a total function from pose and goal to an optional command (`None`: it did not call `set_outputs`); any state of its own is not modelled. `GoToAngleController` is constructed but never used by the supervisor and is not modelled.
- `linalg.distance`, `cos`, `sin` and `pi` are uninterpreted (`pi > 0` only); floating-point rounding is not modelled, all arithmetic is exact over `real`.
- `sunpack`, `supdate` and `vposition` are not defined in the `Pose` class of week2/Simulator/models/pose.py, which has only `__init__` and `unpack`; the model assumes they read all three fields, replace all three fields, and give `(x, y)`, and models them as `Unpack`, `Update` and `Position`.
- A zero wheel base or zero ticks per revolution makes the source fail with a division by zero at the first odometry update; the code does not check them at construction, and the model makes both nonzero a precondition of the constructor instead.
- The `initial_pose` default argument is one `Pose` object shared by every supervisor built without that argument; the model has no default for it (an object cannot be a default here) and keeps the caller's object as the estimate.
- The wheel ticks per revolution are an integer, converted to `real` where the source calls `float`.
- Python's exception unwinding is replaced by the `Outcome` result.
