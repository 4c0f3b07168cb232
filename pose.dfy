/** The robot's pose estimate: a position and a heading, updated in place. */
module Poses {
  import opened Numerics

  /** `(x, y, phi)` in the order `unpack` returns them. */
  type PoseTuple = (real, real, real)

  class Pose {
    var x: real
    var y: real
    /** Heading in radians; stored as given, never wrapped into a range. */
    var phi: real

    constructor (x: real, y: real, phi: real)
      ensures this.x == x && this.y == y && this.phi == phi
      ensures Unpack() == (x, y, phi)
    {
      this.x := x;
      this.y := y;
      this.phi := phi;
    }

    /** The three fields in the order x, y, phi. Being a function, it changes
        nothing and two calls in the same state give the same triple. */
    function Unpack(): (r: PoseTuple)
      reads this
      ensures r.0 == x && r.1 == y && r.2 == phi
    {
      (x, y, phi)
    }

    /** The position part of the pose (`vposition`). */
    function Position(): (p: Point)
      reads this
      ensures p.0 == x && p.1 == y
    {
      (x, y)
    }

    /** Replaces all three fields at once (`supdate`). */
    method Update(x: real, y: real, phi: real)
      modifies this
      ensures Unpack() == (x, y, phi)
    {
      this.x, this.y, this.phi := x, y, phi;
    }
  }
}
