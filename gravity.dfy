/** The per-body integrator of Planet.update: one semi-implicit (symplectic)
    Euler step towards a single attractor, plus the spin of the body about
    its own axis. Everything is over the reals; the distance to the
    attractor is a parameter tied to the displacement by r * r == |rVec|^2. */
module Gravity {
  import opened Vectors

  /** Gravitational constant of the simulation. */
  const G: real := 1.0
  /** Below this distance the attraction is skipped for the frame. */
  const Epsilon: real := 0.001
  /** Math.PI as a real. */
  const Pi: real := 3.141592653589793

  /** The state one update changes: mesh position, velocity and the
      rotation angle about the y axis. */
  datatype Motion = Motion(position: Vec3, velocity: Vec3, rotation: real)

  /** Velocity after one step: the inverse-square pull of `mass` along the
      displacement `rVec` (of length `r`) to the attractor, scaled by `dt`,
      or no pull at all when the attractor is at most Epsilon away. */
  function Kick(v: Vec3, rVec: Vec3, r: real, mass: real, dt: real): (v': Vec3)
    ensures r <= Epsilon ==> v' == v
    ensures dt == 0.0 ==> v' == v
  {
    if r > Epsilon then
      var direction := Scale(rVec, 1.0 / r);
      var aMag := G * mass / (r * r);
      var acceleration := Scale(direction, aMag);
      Add(v, Scale(acceleration, dt))
    else
      v
  }

  /** The velocity change of a kick lies along the displacement: it is
      rVec * (1/r) * G*mass/r^2 * dt. */
  lemma KickAlongDisplacement(v: Vec3, rVec: Vec3, r: real, mass: real, dt: real)
    requires r > Epsilon
    ensures Sub(Kick(v, rVec, r, mass, dt), v) == Scale(rVec, (1.0 / r) * (G * mass / (r * r)) * dt)
  {
    AlongDisplacement(v, rVec, 1.0 / r, G * mass / (r * r), dt);
  }

  /** A velocity change built by normalising, scaling by the magnitude and
      by dt is a single multiple of the displacement. */
  lemma AlongDisplacement(v: Vec3, rVec: Vec3, a: real, b: real, dt: real)
    ensures Sub(Add(v, Scale(Scale(Scale(rVec, a), b), dt)), v) == Scale(rVec, a * b * dt)
  {
    ScaleScale(rVec, a, b);
    ScaleScale(rVec, a * b, dt);
    SubAdd(v, Scale(rVec, a * b * dt));
  }

  /** Newton's inverse-square law for one kick: the velocity change has
      magnitude G*M/r^2 * dt and all of it lies along the displacement to
      the attractor (Cauchy-Schwarz holds with equality). */
  lemma KickInverseSquare(v: Vec3, rVec: Vec3, r: real, mass: real, dt: real)
    requires r > Epsilon && r * r == Dot(rVec, rVec)
    ensures var dv := Sub(Kick(v, rVec, r, mass, dt), v);
      Dot(dv, dv) == (G * mass / (r * r) * dt) * (G * mass / (r * r) * dt) &&
      Dot(dv, rVec) == (G * mass / (r * r) * dt) * r
  {
    var aMag := G * mass / (r * r);
    var k := (1.0 / r) * aMag * dt;
    KickAlongDisplacement(v, rVec, r, mass, dt);
    UnitTimesLength(r, aMag, dt);
    MultipleOfDisplacement(rVec, r, k, aMag * dt);
  }

  lemma UnitTimesLength(r: real, a: real, dt: real)
    requires r > 0.0
    ensures ((1.0 / r) * a * dt) * r == a * dt
  {
    calc {
      ((1.0 / r) * a * dt) * r;
      ((1.0 / r) * r) * (a * dt);
      a * dt;
    }
  }

  /** A multiple k of a displacement of length r, with k * r == s, has
      squared length s^2 and projection s * r on the displacement. */
  lemma MultipleOfDisplacement(rVec: Vec3, r: real, k: real, s: real)
    requires r * r == Dot(rVec, rVec) && k * r == s
    ensures Dot(Scale(rVec, k), Scale(rVec, k)) == s * s
    ensures Dot(Scale(rVec, k), rVec) == s * r
  {
    DotScaleBoth(rVec, k);
    DotScaleLeft(rVec, k, rVec);
    calc {
      k * k * Dot(rVec, rVec);
      k * k * (r * r);
      (k * r) * (k * r);
    }
    calc {
      k * Dot(rVec, rVec);
      k * (r * r);
      (k * r) * r;
    }
  }

  /** Position after one step, moved by `velocity` for `dt`. */
  function Drift(p: Vec3, velocity: Vec3, dt: real): (p': Vec3)
    ensures Sub(p', p) == Scale(velocity, dt)
    ensures dt == 0.0 ==> p' == p
  {
    Add(p, Scale(velocity, dt))
  }

  /** Angle the body turns through in `dt`, one full turn per `period`. */
  function Spin(period: real, dt: real): (a: real)
    requires period != 0.0
    ensures dt == 0.0 ==> a == 0.0
    ensures period > 0.0 && dt > 0.0 ==> a > 0.0
    ensures dt == period ==> a == 2.0 * Pi
  {
    (2.0 * Pi / period) * dt
  }

  /** One integrator step of a body, with dt = delta * speed: velocity
      first, then position with the updated velocity, then the spin. */
  function Advance(m: Motion, attractorPos: Vec3, attractorMass: real, r: real,
                   period: real, dt: real): (m': Motion)
    requires period != 0.0
    // pausing (delta * speed == 0) freezes the body
    ensures dt == 0.0 ==> m' == m
    // coincident attractor: no pull, the body coasts on its old velocity
    ensures r <= Epsilon ==>
      m'.velocity == m.velocity && Sub(m'.position, m.position) == Scale(m.velocity, dt)
    // the velocity change is the pull of the attractor's current position
    ensures m'.velocity == Kick(m.velocity, Sub(attractorPos, m.position), r, attractorMass, dt)
    // semi-implicit order: the position moves with the NEW velocity
    ensures Sub(m'.position, m.position) == Scale(m'.velocity, dt)
    ensures m'.rotation - m.rotation == Spin(period, dt)
  {
    var rVec := Sub(attractorPos, m.position);
    var v' := Kick(m.velocity, rVec, r, attractorMass, dt);
    Motion(Drift(m.position, v', dt), v', m.rotation + Spin(period, dt))
  }

  /** With `length` the Euclidean length, a body farther than Epsilon from
      its attractor feels exactly Newton's pull in one step: a velocity
      change of magnitude G*M/r^2 * dt pointing at the attractor. */
  lemma AdvanceInverseSquare(m: Motion, attractorPos: Vec3, attractorMass: real,
                             length: Vec3 -> real, period: real, dt: real)
    requires period != 0.0 && IsLength(length)
    requires length(Sub(attractorPos, m.position)) > Epsilon
    ensures var rVec := Sub(attractorPos, m.position);
      var r := length(rVec);
      var dv := Sub(Advance(m, attractorPos, attractorMass, r, period, dt).velocity, m.velocity);
      Dot(dv, dv) == (G * attractorMass / (r * r) * dt) * (G * attractorMass / (r * r) * dt) &&
      Dot(dv, rVec) == (G * attractorMass / (r * r) * dt) * r
  {
    var rVec := Sub(attractorPos, m.position);
    var r := length(rVec);
    assert Advance(m, attractorPos, attractorMass, r, period, dt).velocity ==
           Kick(m.velocity, rVec, r, attractorMass, dt);
    KickInverseSquare(m.velocity, rVec, r, attractorMass, dt);
  }
}
