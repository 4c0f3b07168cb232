/** Differential-drive dead reckoning: turning encoder tick totals into an
    updated pose estimate, as the supervisor does once per control cycle. */
module Odometry {
  import opened Numerics
  import opened Poses

  /** Encoder tick totals `(left, right)`. Unbounded: no counter wrap-around. */
  type Ticks = (int, int)

  /** The robot's wheel geometry: radius R, wheel base length, and encoder
      ticks per revolution N. */
  datatype Geometry = Geometry(wheelRadius: real, wheelBaseLength: real, ticksPerRevolution: int)
  {
    /** The update divides by the wheel base and by N and guards neither. */
    predicate Valid() {
      wheelBaseLength != 0.0 && ticksPerRevolution != 0
    }
  }

  /** Distance a wheel rolls for `dTicks` ticks: 2*pi*R*(dTicks/N). */
  function WheelDisplacement(lib: Lib, geo: Geometry, dTicks: int): (d: real)
    requires geo.Valid()
    ensures dTicks == 0 ==> d == 0.0
  {
    2.0 * lib.pi * geo.wheelRadius * (dTicks as real / geo.ticksPerRevolution as real)
  }

  /** The pose after the wheels rolled `dLeftWheel` and `dRightWheel`: the
      centre moves by their mean along the PREVIOUS heading, and the heading
      grows by their difference over the wheel base, with no wrapping. */
  function Move(lib: Lib, wheelBaseLength: real, pose: PoseTuple, dLeftWheel: real, dRightWheel: real): (r: PoseTuple)
    requires wheelBaseLength != 0.0
    ensures dLeftWheel == dRightWheel ==> r.2 == pose.2
    ensures dLeftWheel == -dRightWheel ==> r.0 == pose.0 && r.1 == pose.1
  {
    var dCenter := 0.5 * (dLeftWheel + dRightWheel);
    var (prevX, prevY, prevTheta) := pose;
    (prevX + dCenter * lib.cos(prevTheta),
     prevY + dCenter * lib.sin(prevTheta),
     prevTheta + (dRightWheel - dLeftWheel) / wheelBaseLength)
  }

  /** Dead-reckoning step for the tick deltas `dTicksLeft`, `dTicksRight`. */
  function Advance(lib: Lib, geo: Geometry, pose: PoseTuple, dTicksLeft: int, dTicksRight: int): (r: PoseTuple)
    requires geo.Valid()
    ensures dTicksLeft == 0 && dTicksRight == 0 ==> r == pose
    ensures dTicksLeft == dTicksRight ==> r.2 == pose.2
    ensures dTicksLeft == -dTicksRight ==> r.0 == pose.0 && r.1 == pose.1
  {
    WheelDisplacementScales(lib, geo, -1, dTicksRight);
    Move(lib, geo.wheelBaseLength, pose,
         WheelDisplacement(lib, geo, dTicksLeft), WheelDisplacement(lib, geo, dTicksRight))
  }

  /** One odometry update: deltas against the stored baseline, the advanced
      pose, and the reading just taken as the new baseline. */
  function Update(lib: Lib, geo: Geometry, pose: PoseTuple, baseline: Ticks, reading: Ticks): (r: (PoseTuple, Ticks))
    requires geo.Valid()
    ensures r.1 == reading
    ensures reading == baseline ==> r.0 == pose
  {
    (Advance(lib, geo, pose, reading.0 - baseline.0, reading.1 - baseline.1), reading)
  }

  /** Only the tick deltas matter: shifting the baseline and the reading by
      the same amounts gives the same pose. */
  lemma OnlyDeltasMatter(lib: Lib, geo: Geometry, pose: PoseTuple, baseline: Ticks, reading: Ticks, shift: Ticks)
    requires geo.Valid()
    ensures Update(lib, geo, pose, (baseline.0 + shift.0, baseline.1 + shift.1), (reading.0 + shift.0, reading.1 + shift.1)).0
         == Update(lib, geo, pose, baseline, reading).0
  {
  }

  lemma WheelDisplacementAdds(lib: Lib, geo: Geometry, a: int, b: int)
    requires geo.Valid()
    ensures WheelDisplacement(lib, geo, a) + WheelDisplacement(lib, geo, b) == WheelDisplacement(lib, geo, a + b)
  {
  }

  lemma WheelDisplacementScales(lib: Lib, geo: Geometry, k: int, d: int)
    requires geo.Valid()
    ensures WheelDisplacement(lib, geo, k * d) == k as real * WheelDisplacement(lib, geo, d)
  {
  }

  /** The heading only depends on the tick totals, not on how they were
      reached: two updates through an intermediate reading give the same
      heading as a single update straight to the last reading. This is what
      keeping the baseline equal to the last reading buys. */
  lemma HeadingIsPathIndependent(lib: Lib, geo: Geometry, pose: PoseTuple, baseline: Ticks, mid: Ticks, last: Ticks)
    requires geo.Valid()
    ensures var (p1, b1) := Update(lib, geo, pose, baseline, mid);
            Update(lib, geo, p1, b1, last).0.2 == Update(lib, geo, pose, baseline, last).0.2
  {
    var wb := geo.wheelBaseLength;
    var l1 := WheelDisplacement(lib, geo, mid.0 - baseline.0);
    var r1 := WheelDisplacement(lib, geo, mid.1 - baseline.1);
    var l2 := WheelDisplacement(lib, geo, last.0 - mid.0);
    var r2 := WheelDisplacement(lib, geo, last.1 - mid.1);
    WheelDisplacementAdds(lib, geo, mid.0 - baseline.0, last.0 - mid.0);
    WheelDisplacementAdds(lib, geo, mid.1 - baseline.1, last.1 - mid.1);
    DivisionAdds(r1 - l1, r2 - l2, wb);
  }

  lemma DivisionAdds(a: real, b: real, w: real)
    requires w != 0.0
    ensures a / w + b / w == (a + b) / w
  {
  }

  /** Translation uses the heading from before the update: two updates with
      the same total tick delta move the position identically, however they
      split it between the wheels (that is, whatever they turn). */
  lemma TranslationUsesPreviousHeading(lib: Lib, geo: Geometry, pose: PoseTuple,
                                       dl1: int, dr1: int, dl2: int, dr2: int)
    requires geo.Valid()
    requires dl1 + dr1 == dl2 + dr2
    ensures Advance(lib, geo, pose, dl1, dr1).0 == Advance(lib, geo, pose, dl2, dr2).0
    ensures Advance(lib, geo, pose, dl1, dr1).1 == Advance(lib, geo, pose, dl2, dr2).1
  {
    WheelDisplacementAdds(lib, geo, dl1, dr1);
    WheelDisplacementAdds(lib, geo, dl2, dr2);
    MoveTranslationIsByCenter(lib, geo.wheelBaseLength, pose,
      WheelDisplacement(lib, geo, dl1), WheelDisplacement(lib, geo, dr1),
      WheelDisplacement(lib, geo, dl2), WheelDisplacement(lib, geo, dr2));
  }

  lemma MoveTranslationIsByCenter(lib: Lib, wb: real, pose: PoseTuple, l1: real, r1: real, l2: real, r2: real)
    requires wb != 0.0
    requires l1 + r1 == l2 + r2
    ensures Move(lib, wb, pose, l1, r1).0 == Move(lib, wb, pose, l2, r2).0
    ensures Move(lib, wb, pose, l1, r1).1 == Move(lib, wb, pose, l2, r2).1
  {
  }

  /** Doubling both tick deltas doubles the position change and the heading
      change. */
  lemma DoublingDeltasDoublesDisplacement(lib: Lib, geo: Geometry, pose: PoseTuple, dl: int, dr: int)
    requires geo.Valid()
    ensures var once := Advance(lib, geo, pose, dl, dr);
            var twice := Advance(lib, geo, pose, 2 * dl, 2 * dr);
            && twice.0 - pose.0 == 2.0 * (once.0 - pose.0)
            && twice.1 - pose.1 == 2.0 * (once.1 - pose.1)
            && twice.2 - pose.2 == 2.0 * (once.2 - pose.2)
  {
    var l, r := WheelDisplacement(lib, geo, dl), WheelDisplacement(lib, geo, dr);
    WheelDisplacementScales(lib, geo, 2, dl);
    WheelDisplacementScales(lib, geo, 2, dr);
    assert Advance(lib, geo, pose, 2 * dl, 2 * dr) == Move(lib, geo.wheelBaseLength, pose, 2.0 * l, 2.0 * r);
    MoveIsLinear(lib, geo.wheelBaseLength, pose, 2.0, l, r);
  }

  lemma MoveIsLinear(lib: Lib, wb: real, pose: PoseTuple, k: real, l: real, r: real)
    requires wb != 0.0
    ensures var one := Move(lib, wb, pose, l, r);
            var scaled := Move(lib, wb, pose, k * l, k * r);
            && scaled.0 - pose.0 == k * (one.0 - pose.0)
            && scaled.1 - pose.1 == k * (one.1 - pose.1)
            && scaled.2 - pose.2 == k * (one.2 - pose.2)
  {
  }

  /** The heading is not normalised: starting at pi, one forward revolution of
      the right wheel alone leaves a heading above pi. */
  lemma HeadingIsNotWrapped(lib: Lib, geo: Geometry, pose: PoseTuple)
    requires geo.Valid()
    requires geo.wheelRadius > 0.0 && geo.wheelBaseLength > 0.0 && geo.ticksPerRevolution > 0
    requires pose.2 == lib.pi
    ensures Advance(lib, geo, pose, 0, geo.ticksPerRevolution).2 > lib.pi
  {
  }

  /** Straight run: R = 0.1, N = 20, wheel base 0.5, ten ticks on each wheel
      from the origin facing along x moves the robot 0.1*pi along x. */
  lemma StraightRunScenario(lib: Lib)
    requires lib.cos(0.0) == 1.0 && lib.sin(0.0) == 0.0
    ensures Advance(lib, Geometry(0.1, 0.5, 20), (0.0, 0.0, 0.0), 10, 10) == (0.1 * lib.pi, 0.0, 0.0)
  {
  }

  /** Pivot on the right wheel: ten ticks on the left wheel only moves the
      centre by 0.05*pi and turns the heading by -0.2*pi. */
  lemma PivotScenario(lib: Lib)
    requires lib.cos(0.0) == 1.0 && lib.sin(0.0) == 0.0
    ensures Advance(lib, Geometry(0.1, 0.5, 20), (0.0, 0.0, 0.0), 10, 0) == (0.05 * lib.pi, 0.0, -0.2 * lib.pi)
  {
  }
}
