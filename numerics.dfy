/** The mathematical library the supervisor relies on: `math.pi`, `math.cos`,
    `math.sin` and `linalg.distance`. They are carried as data and stay
    uninterpreted; the only fact assumed of them everywhere is that pi is
    positive. The two worked odometry scenarios additionally take cos 0 = 1
    and sin 0 = 0 as preconditions. */
module Numerics {

  /** A point of the plane, as `[x, y]` in the source. */
  type Point = (real, real)

  type PositiveReal = r: real | r > 0.0 witness 1.0

  datatype Lib = Lib(
    pi: PositiveReal,
    cos: real -> real,
    sin: real -> real,
    distance: (Point, Point) -> real)
}
