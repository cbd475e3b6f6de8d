/**
 * Points and vectors of the playing field, and the bounds test shared by
 * bullets and birds. The definitions of Position and Velocity (position.h)
 * are not part of this model: they are pairs of reals with the handful of
 * operations the simulation calls.
 */
module Geometry {

  /** A point of the field, in pixels. */
  datatype Position = Position(x: real, y: real) {
    /** Position::add: one tick of motion along v. */
    function Add(v: Velocity): Position {
      Position(x + v.dx, y + v.dy)
    }
  }

  /** A displacement per tick. */
  datatype Velocity = Velocity(dx: real, dy: real) {
    /** Velocity *= k: uniform scaling, as drag does. */
    function Scale(k: real): Velocity {
      Velocity(k * dx, k * dy)
    }

    function AddDx(d: real): Velocity {
      Velocity(dx + d, dy)
    }

    function AddDy(d: real): Velocity {
      Velocity(dx, dy + d)
    }
  }

  /**
   * The numeric routines whose definitions the model does not see: the C
   * library's cos and sin, Velocity::turn (rotate by an angle) and
   * Velocity::set (a velocity from an angle and a speed). They are passed in
   * as values, so nothing is assumed about them.
   */
  datatype Trig = Trig(
    cos: real -> real,
    sin: real -> real,
    turn: (Velocity, real) -> Velocity,
    polar: (real, real) -> Velocity)

  /**
   * The field [0, W) x [0, H) (W, H the screen dimensions) widened by the
   * object's radius on every side; the lower edges belong to it, the upper
   * edges do not.
   */
  predicate InField(pt: Position, radius: real, dims: Position) {
    -radius <= pt.x < dims.x + radius && -radius <= pt.y < dims.y + radius
  }

  /**
   * isOutOfBounds of Bullet, BulletLogic and Bird: the object has left the
   * widened field.
   */
  function OutOfBounds(pt: Position, radius: real, dims: Position): (out: bool)
    ensures out <==> !InField(pt, radius, dims)
  {
    pt.x < -radius || pt.x >= dims.x + radius || pt.y < -radius || pt.y >= dims.y + radius
  }
}
