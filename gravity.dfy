/** Bodies and pairwise softened Newtonian gravity (gravity.py). */
module Gravity {
  import opened Numerics

  /** The gravitational constant G of gravity.py. */
  const G: real := 6.67430e-11

  /** The softening length added in quadrature to every separation. */
  const EPSILON: real := 1.0e3

  /** An RGB display colour; the physics never reads it. */
  datatype Color = Color(r: int, g: int, b: int)

  const WHITE: Color := Color(255, 255, 255)

  /** The state of one body at one instant: the abstract value of a `Body`. */
  datatype BodyState = BodyState(x: real, y: real, mass: real, vx: real, vy: real, color: Color)

  /** A body whose position and velocity the simulation updates in place. */
  class Body {
    var x: real
    var y: real
    var mass: real
    var vx: real
    var vy: real
    var color: Color

    /** A body at rest and white unless a velocity and a colour are given. */
    constructor (x: real, y: real, mass: real, vx: real := 0.0, vy: real := 0.0, color: Color := WHITE)
      ensures Value() == BodyState(x, y, mass, vx, vy, color)
    {
      this.x := x;
      this.y := y;
      this.mass := mass;
      this.vx := vx;
      this.vy := vy;
      this.color := color;
    }

    function Value(): BodyState
      reads this
    {
      BodyState(x, y, mass, vx, vy, color)
    }

    /** One explicit-Euler position step with the current velocity. */
    method UpdatePosition(dt: real)
      modifies this
      ensures Value() == Drift(old(Value()), dt)
    {
      x := x + vx * dt;
      y := y + vy * dt;
    }
  }

  /** The effect of `update_position` on a body's state. */
  function Drift(b: BodyState, dt: real): (r: BodyState)
    ensures r.mass == b.mass && r.vx == b.vx && r.vy == b.vy && r.color == b.color
  {
    b.(x := b.x + b.vx * dt, y := b.y + b.vy * dt)
  }

  /** Drifting for `s` and then for `t` is drifting for `s + t`. */
  lemma DriftAdditive(b: BodyState, s: real, t: real)
    ensures Drift(Drift(b, s), t) == Drift(b, s + t)
  {
    var once, twice := Drift(b, s + t), Drift(Drift(b, s), t);
    assert b.vx * (s + t) == b.vx * s + b.vx * t;
    assert b.vy * (s + t) == b.vy * s + b.vy * t;
    assert twice.x == once.x && twice.y == once.y;
  }

  /** Drifting backwards for the same time undoes a drift. */
  lemma DriftInverse(b: BodyState, dt: real)
    ensures Drift(Drift(b, dt), -dt) == b
  {
    DriftAdditive(b, dt, -dt);
    assert Drift(b, 0.0) == b;
  }

  function Sq(v: real): (r: real)
    ensures r >= 0.0
  {
    v * v
  }

  /** The softened separation sqrt(dx^2 + dy^2 + EPSILON^2) from `a` to `b`. */
  function SoftenedDistance(a: BodyState, b: BodyState, m: MathLib): (d: real)
    requires m.Lawful()
    ensures d >= EPSILON > 0.0
    ensures d * d == Sq(b.x - a.x) + Sq(b.y - a.y) + Sq(EPSILON)
  {
    var s := Sq(b.x - a.x) + Sq(b.y - a.y) + Sq(EPSILON);
    SqrtAtLeast(m, s, EPSILON);
    assert m.SqrtLaw(s);
    m.sqrt(s)
  }

  /** The magnitude G m1 m2 / distance^2 of the force between two bodies. */
  function ForceMagnitude(a: BodyState, b: BodyState, m: MathLib): (f: real)
    requires m.Lawful()
    ensures a.mass * b.mass >= 0.0 ==> 0.0 <= f <= G * a.mass * b.mass / Sq(EPSILON)
    ensures a.mass * b.mass > 0.0 ==> f > 0.0
  {
    var d := SoftenedDistance(a, b, m);
    var c := G * a.mass * b.mass;
    SquareStrictOrEqual(EPSILON, d);
    DivideByLarger(c, Sq(EPSILON), d * d);
    c / (d * d)
  }

  lemma SquareStrictOrEqual(a: real, b: real)
    requires 0.0 <= a <= b
    ensures Sq(a) <= Sq(b)
  {
    if a < b {
      SquareStrict(a, b);
    }
  }

  lemma DivideByLarger(c: real, lo: real, hi: real)
    requires 0.0 < lo <= hi
    ensures c >= 0.0 ==> 0.0 <= c / hi <= c / lo
    ensures c > 0.0 ==> c / hi > 0.0
  {
    if c >= 0.0 {
      var p, q := c / hi, c / lo;
      assert p * hi == c && q * lo == c;
      assert p >= 0.0;
      assert p * lo <= p * hi;
      CancelPositive(p, q, lo);
    }
  }

  lemma CancelPositive(p: real, q: real, k: real)
    requires k > 0.0 && p * k <= q * k
    ensures p <= q
  {
  }

  /** The force (fx, fy) that `other` exerts on `self`, as
      `calculate_gravitational_force` computes it. */
  function Force(self: BodyState, other: BodyState, m: MathLib): (f: (real, real))
    requires m.Lawful()
  {
    var dx := other.x - self.x;
    var dy := other.y - self.y;
    var distance := SoftenedDistance(self, other, m);
    var force := ForceMagnitude(self, other, m);
    (Component(force, dx, distance), Component(force, dy, distance))
  }

  /** One component `force * delta / distance` of the force vector. */
  function Component(force: real, delta: real, distance: real): real
    requires distance != 0.0
  {
    force * delta / distance
  }

  lemma SoftenedDistanceSymmetric(a: BodyState, b: BodyState, m: MathLib)
    requires m.Lawful()
    ensures SoftenedDistance(b, a, m) == SoftenedDistance(a, b, m)
  {
    assert Sq(a.x - b.x) == Sq(b.x - a.x);
    assert Sq(a.y - b.y) == Sq(b.y - a.y);
  }

  lemma ForceMagnitudeSymmetric(a: BodyState, b: BodyState, m: MathLib)
    requires m.Lawful()
    ensures ForceMagnitude(b, a, m) == ForceMagnitude(a, b, m)
  {
    SoftenedDistanceSymmetric(a, b, m);
    assert G * b.mass * a.mass == G * a.mass * b.mass;
  }

  lemma NegateComponent(f: real, p: real, q: real, d: real)
    requires d != 0.0
    ensures Component(f, p - q, d) == -Component(f, q - p, d)
  {
    assert f * (p - q) == -(f * (q - p));
  }

  /** Newton's third law: swapping the bodies negates the force. */
  lemma ForceAntisymmetric(a: BodyState, b: BodyState, m: MathLib)
    requires m.Lawful()
    ensures Force(b, a, m) == (-Force(a, b, m).0, -Force(a, b, m).1)
  {
    SoftenedDistanceSymmetric(a, b, m);
    var d := SoftenedDistance(a, b, m);
    ForceMagnitudeSymmetric(a, b, m);
    var f := ForceMagnitude(a, b, m);
    NegateComponent(f, a.x, b.x, d);
    NegateComponent(f, a.y, b.y, d);
  }

  /** With positive masses every component of the force has the sign of the
      separation along that axis: it pulls `self` towards `other`, and two
      coincident bodies feel no force. */
  lemma ForceAttracts(self: BodyState, other: BodyState, m: MathLib)
    requires m.Lawful()
    requires self.mass > 0.0 && other.mass > 0.0
    ensures var f := Force(self, other, m);
      && (f.0 > 0.0 <==> other.x > self.x) && (f.0 < 0.0 <==> other.x < self.x)
      && (f.1 > 0.0 <==> other.y > self.y) && (f.1 < 0.0 <==> other.y < self.y)
  {
    var d := SoftenedDistance(self, other, m);
    var f := ForceMagnitude(self, other, m);
    assert self.mass * other.mass > 0.0;
    assert f > 0.0 && d > 0.0;
    SignOfComponent(f, other.x - self.x, d);
    SignOfComponent(f, other.y - self.y, d);
  }

  lemma SignOfComponent(f: real, v: real, d: real)
    requires f > 0.0 && d > 0.0
    ensures Component(f, v, d) > 0.0 <==> v > 0.0
    ensures Component(f, v, d) < 0.0 <==> v < 0.0
  {
    if v > 0.0 {
      assert f * v > 0.0;
    } else if v < 0.0 {
      assert f * v < 0.0;
      assert f * v / d * d == f * v;
    } else {
      assert f * v == 0.0;
    }
  }

  /** `b` is `a` with at most its velocity changed. */
  predicate Unmoved(b: BodyState, a: BodyState) {
    b.x == a.x && b.y == a.y && b.mass == a.mass && b.color == a.color
  }

  /** The force depends on the positions and masses only. */
  lemma ForceIgnoresVelocity(self: BodyState, other: BodyState, other': BodyState, m: MathLib)
    requires m.Lawful() && Unmoved(other, other')
    ensures Force(self, other, m) == Force(self, other', m)
  {
    assert SoftenedDistance(self, other, m) == SoftenedDistance(self, other', m);
    assert ForceMagnitude(self, other, m) == ForceMagnitude(self, other', m);
  }

  /** The velocity kicks of `update_velocities`: `a` gains force/mass * dt,
      `b` loses its own share, and nothing but the velocities changes. */
  function Kick(a: BodyState, b: BodyState, dt: real, m: MathLib): (r: (BodyState, BodyState))
    requires m.Lawful()
    requires a.mass != 0.0 && b.mass != 0.0
    ensures Unmoved(r.0, a) && Unmoved(r.1, b)
  {
    var f := Force(a, b, m);
    (a.(vx := a.vx + DeltaV(f.0, a.mass, dt), vy := a.vy + DeltaV(f.1, a.mass, dt)),
     b.(vx := b.vx - DeltaV(f.0, b.mass, dt), vy := b.vy - DeltaV(f.1, b.mass, dt)))
  }

  /** The velocity change `force / mass * dt` one force component causes. */
  function DeltaV(force: real, mass: real, dt: real): real
    requires mass != 0.0
  {
    force / mass * dt
  }

  /** The kicks conserve the pair's linear momentum exactly, for any time
      step and any non-zero masses. */
  lemma KickConservesMomentum(a: BodyState, b: BodyState, dt: real, m: MathLib)
    requires m.Lawful()
    requires a.mass != 0.0 && b.mass != 0.0
    ensures var r := Kick(a, b, dt, m);
      && a.mass * r.0.vx + b.mass * r.1.vx == a.mass * a.vx + b.mass * b.vx
      && a.mass * r.0.vy + b.mass * r.1.vy == a.mass * a.vy + b.mass * b.vy
  {
    var f, r := Force(a, b, m), Kick(a, b, dt, m);
    GainedShare(a.mass, a.vx, r.0.vx, f.0, dt);
    LostShare(b.mass, b.vx, r.1.vx, f.0, dt);
    GainedShare(a.mass, a.vy, r.0.vy, f.1, dt);
    LostShare(b.mass, b.vy, r.1.vy, f.1, dt);
  }

  /** The momentum `mass * nv` after a body gains the velocity share of the
      force component `f`. */
  lemma GainedShare(mass: real, v: real, nv: real, f: real, dt: real)
    requires mass != 0.0 && nv == v + DeltaV(f, mass, dt)
    ensures mass * nv == mass * v + f * dt
  {
    assert mass * (f / mass) == f;
    assert mass * (f / mass * dt) == f * dt;
  }

  /** The momentum `mass * nv` after a body loses that share. */
  lemma LostShare(mass: real, v: real, nv: real, f: real, dt: real)
    requires mass != 0.0 && nv == v - DeltaV(f, mass, dt)
    ensures mass * nv == mass * v - f * dt
  {
    assert mass * (f / mass) == f;
    assert mass * (f / mass * dt) == f * dt;
  }

  /** A body kicked by itself keeps its velocity: the separation is zero. */
  lemma KickSelf(a: BodyState, dt: real, m: MathLib)
    requires m.Lawful()
    requires a.mass != 0.0
    ensures Force(a, a, m) == (0.0, 0.0)
    ensures Kick(a, a, dt, m) == (a, a)
  {
    var f := Force(a, a, m);
    assert f == (0.0, 0.0);
  }

  /** `update_velocities`: the two bodies take the kicks of `Kick`, in place.
      When both arguments are the same body it is left as it was. */
  method UpdateVelocities(body1: Body, body2: Body, dt: real, m: MathLib)
    requires m.Lawful()
    requires body1.mass != 0.0 && body2.mass != 0.0
    modifies body1, body2
    ensures body1.Value() == Kick(old(body1.Value()), old(body2.Value()), dt, m).0
    ensures body2.Value() == Kick(old(body1.Value()), old(body2.Value()), dt, m).1
  {
    var f := Force(body1.Value(), body2.Value(), m);
    if body1 == body2 {
      KickSelf(body1.Value(), dt, m);
      assert f == (0.0, 0.0);
    }
    body1.vx := body1.vx + DeltaV(f.0, body1.mass, dt);
    body1.vy := body1.vy + DeltaV(f.1, body1.mass, dt);
    body2.vx := body2.vx - DeltaV(f.0, body2.mass, dt);
    body2.vy := body2.vy - DeltaV(f.1, body2.mass, dt);
  }
}
