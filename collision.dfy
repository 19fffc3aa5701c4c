/** Overlap test and merging of two colliding bodies (collision.py). */
module Collision {
  import opened Numerics
  import opened Gravity

  /** Metres of collision radius per cube-root kilogram. */
  const MASS_SCALE: real := 1.0e-10

  /** Every merged body is drawn orange. */
  const ORANGE: Color := Color(255, 165, 0)

  /** `calculate_radius`: the truncated cube-root radius int(cbrt(mass) * MASS_SCALE). */
  function Radius(mass: real, m: MathLib): (r: int)
    requires m.Lawful()
    ensures mass >= 0.0 ==> 0 <= r && r as real <= m.cbrt(mass) * MASS_SCALE < r as real + 1.0
  {
    assert m.CbrtLaw(mass);
    Trunc(m.cbrt(mass) * MASS_SCALE)
  }

  /** A heavier body never has a smaller radius. */
  lemma RadiusMonotone(m: MathLib, lighter: real, heavier: real)
    requires m.Lawful()
    requires 0.0 <= lighter <= heavier
    ensures Radius(lighter, m) <= Radius(heavier, m)
  {
    CbrtMonotone(m, lighter, heavier);
    assert m.CbrtLaw(lighter);
    TruncMonotone(m.cbrt(lighter) * MASS_SCALE, m.cbrt(heavier) * MASS_SCALE);
  }

  /** The radius is 0 exactly below 1e30 kg, the mass whose cube root is 1e10. */
  lemma RadiusZeroBelow(m: MathLib, mass: real)
    requires m.Lawful()
    requires mass >= 0.0
    ensures Radius(mass, m) == 0 <==> mass < 1.0e30
  {
    var c := m.cbrt(mass);
    assert m.CbrtLaw(mass);
    if mass < 1.0e30 {
      if c >= 1.0e10 {
        if c > 1.0e10 {
          CubeStrict(1.0e10, c);
        }
        assert false;
      }
    } else {
      if c < 1.0e10 {
        CubeStrict(c, 1.0e10);
        assert false;
      }
    }
  }

  /** The centre-to-centre distance of `check_collision`, with no softening. */
  function Distance(a: BodyState, b: BodyState, m: MathLib): (d: real)
    requires m.Lawful()
    ensures d >= 0.0 && d * d == Sq(b.x - a.x) + Sq(b.y - a.y)
  {
    assert m.SqrtLaw(Sq(b.x - a.x) + Sq(b.y - a.y));
    m.sqrt(Sq(b.x - a.x) + Sq(b.y - a.y))
  }

  /** `check_collision`: the centres are closer than the sum of the radii. */
  predicate Collides(a: BodyState, b: BodyState, m: MathLib)
    requires m.Lawful()
  {
    Distance(a, b, m) < (Radius(a.mass, m) + Radius(b.mass, m)) as real
  }

  /** The test does not depend on the order of the two bodies. */
  lemma CollidesSymmetric(a: BodyState, b: BodyState, m: MathLib)
    requires m.Lawful()
    ensures Collides(a, b, m) <==> Collides(b, a, m)
  {
    assert Sq(a.x - b.x) == Sq(b.x - a.x);
    assert Sq(a.y - b.y) == Sq(b.y - a.y);
    assert Distance(a, b, m) == Distance(b, a, m);
  }

  /** An equivalent test without the square root: for non-negative masses the
      squared separation is below the squared sum of the radii. */
  lemma CollidesWithoutSqrt(a: BodyState, b: BodyState, m: MathLib)
    requires m.Lawful()
    requires a.mass >= 0.0 && b.mass >= 0.0
    ensures Collides(a, b, m) <==>
      Sq(b.x - a.x) + Sq(b.y - a.y) < Sq((Radius(a.mass, m) + Radius(b.mass, m)) as real)
  {
    var r := (Radius(a.mass, m) + Radius(b.mass, m)) as real;
    SqrtBelow(m, Sq(b.x - a.x) + Sq(b.y - a.y), r);
  }

  /** Two bodies whose radii both truncate to 0 never collide, not even at
      the same position, because the test is a strict `<`. */
  lemma ZeroRadiiNeverCollide(a: BodyState, b: BodyState, m: MathLib)
    requires m.Lawful()
    requires Radius(a.mass, m) == 0 && Radius(b.mass, m) == 0
    ensures !Collides(a, b, m)
  {
    assert Distance(a, b, m) >= 0.0;
  }

  /** `handle_collision` on states: the merged body carries the summed mass
      and momentum, and sits where the strictly heavier body was. */
  function Merge(body1: BodyState, body2: BodyState): (r: BodyState)
    requires body1.mass + body2.mass != 0.0
    ensures r.mass == body1.mass + body2.mass
    ensures r.mass * r.vx == body1.mass * body1.vx + body2.mass * body2.vx
    ensures r.mass * r.vy == body1.mass * body1.vy + body2.mass * body2.vy
  {
    var newMass := body1.mass + body2.mass;
    var newVx := (body1.vx * body1.mass + body2.vx * body2.mass) / newMass;
    var newVy := (body1.vy * body1.mass + body2.vy * body2.mass) / newMass;
    var newX := if body1.mass > body2.mass then body1.x else body2.x;
    var newY := if body1.mass > body2.mass then body1.y else body2.y;
    BodyState(newX, newY, newMass, newVx, newVy, ORANGE)
  }

  /** The merged position is `body1`'s only when it is strictly heavier; a
      tie goes to `body2`. The colour is orange whatever the inputs were. */
  lemma MergePositionAndColor(body1: BodyState, body2: BodyState)
    requires body1.mass + body2.mass != 0.0
    ensures var r := Merge(body1, body2);
      && (body1.mass > body2.mass ==> r.x == body1.x && r.y == body1.y)
      && (body1.mass <= body2.mass ==> r.x == body2.x && r.y == body2.y)
      && r.color == ORANGE
  {
  }

  /** With positive masses each merged velocity component is a convex
      combination of the two inputs, so it lies between them. */
  lemma MergeVelocityBetween(body1: BodyState, body2: BodyState)
    requires body1.mass > 0.0 && body2.mass > 0.0
    ensures var r := Merge(body1, body2);
      && Between(r.vx, body1.vx, body2.vx)
      && Between(r.vy, body1.vy, body2.vy)
  {
    var r := Merge(body1, body2);
    WeightedMeanBetween(body1.mass, body1.vx, body2.mass, body2.vx, r.vx);
    WeightedMeanBetween(body1.mass, body1.vy, body2.mass, body2.vy, r.vy);
  }

  predicate Between(v: real, p: real, q: real) {
    (p <= v <= q) || (q <= v <= p)
  }

  lemma WeightedMeanBetween(m1: real, p: real, m2: real, q: real, v: real)
    requires m1 > 0.0 && m2 > 0.0
    requires (m1 + m2) * v == m1 * p + m2 * q
    ensures Between(v, p, q)
  {
  }

  /** `handle_collision`: a fresh body built from the two, which are left
      untouched. */
  method HandleCollision(body1: Body, body2: Body) returns (newBody: Body)
    requires body1.mass + body2.mass != 0.0
    ensures fresh(newBody)
    ensures newBody.Value() == Merge(body1.Value(), body2.Value())
  {
    var newMass := body1.mass + body2.mass;
    var newVx := (body1.vx * body1.mass + body2.vx * body2.mass) / newMass;
    var newVy := (body1.vy * body1.mass + body2.vy * body2.mass) / newMass;
    var newX, newY;
    if body1.mass > body2.mass {
      newX, newY := body1.x, body1.y;
    } else {
      newX, newY := body2.x, body2.y;
    }
    newBody := new Body(newX, newY, newMass, newVx, newVy, color := ORANGE);
  }
}
