/**
 * Three-dimensional vectors over exact reals, standing in for the numpy arrays
 * the controller uses for positions and velocities.
 */
module Geometry {

  datatype Vec3 = Vec3(x: real, y: real, z: real)

  const ZERO: Vec3 := Vec3(0.0, 0.0, 0.0)

  /** Radius around the leader's goal inside which the goal counts as reached. */
  const GOAL_RADIUS: real := 10.0

  function Sub(a: Vec3, b: Vec3): Vec3 {
    Vec3(a.x - b.x, a.y - b.y, a.z - b.z)
  }

  /** The squared Euclidean norm; comparing it avoids a square root. */
  function NormSq(v: Vec3): (r: real)
    ensures r >= 0.0
  {
    v.x * v.x + v.y * v.y + v.z * v.z
  }

  /** `norm(p - goal) < GOAL_RADIUS`, stated on squares. */
  predicate WithinGoal(p: Vec3, goal: Vec3) {
    NormSq(Sub(p, goal)) < GOAL_RADIUS * GOAL_RADIUS
  }

  /** The squared test agrees with the norm test: for the norm `d` of `p - goal`, `WithinGoal` holds exactly when `d < GOAL_RADIUS`. */
  lemma WithinGoalIsNormBelowRadius(p: Vec3, goal: Vec3, d: real)
    requires d >= 0.0 && d * d == NormSq(Sub(p, goal))
    ensures WithinGoal(p, goal) <==> d < GOAL_RADIUS
  {
    if d < GOAL_RADIUS {
      assert (GOAL_RADIUS - d) * (GOAL_RADIUS + d) > 0.0;
    } else {
      assert d * (d - GOAL_RADIUS) >= 0.0;
      assert d * d >= GOAL_RADIUS * d >= GOAL_RADIUS * GOAL_RADIUS;
    }
  }
}
