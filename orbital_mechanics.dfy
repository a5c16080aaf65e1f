/** Orbit kinematics of src/utils/orbitalMechanics.ts: where a satellite is
    and how fast it moves at a time, the separation of two points, and the
    commit of elapsed time into a satellite's orbit angle. */
module OrbitalMechanics {
  import opened JsMath
  import opened Entities

  /** The orbit angle reached `time` units after the satellite's committed angle. */
  function Phase(s: Satellite, time: real): real {
    s.orbitAngle + s.orbitSpeed * time
  }

  function Position(m: MathLib, s: Satellite, time: real): Vec3 {
    var a := Phase(s, time);
    Vec3(s.orbitRadius * m.cos(a) * m.cos(s.inclination),
         s.orbitRadius * m.sin(a),
         s.orbitRadius * m.cos(a) * m.sin(s.inclination))
  }

  function Velocity(m: MathLib, s: Satellite, time: real): Vec3 {
    var a := Phase(s, time);
    Vec3(-s.orbitRadius * s.orbitSpeed * m.sin(a) * m.cos(s.inclination),
         s.orbitRadius * s.orbitSpeed * m.cos(a),
         -s.orbitRadius * s.orbitSpeed * m.sin(a) * m.sin(s.inclination))
  }

  function Sub(p: Vec3, q: Vec3): Vec3 {
    Vec3(p.x - q.x, p.y - q.y, p.z - q.z)
  }

  function Dot(p: Vec3, q: Vec3): real {
    p.x * q.x + p.y * q.y + p.z * q.z
  }

  lemma SquareNonNegative(a: real)
    ensures a * a >= 0.0
  {
    if a < 0.0 {
      assert a * a == (-a) * (-a);
    }
  }

  lemma SelfDotNonNegative(p: Vec3)
    ensures Dot(p, p) >= 0.0
  {
    SquareNonNegative(p.x);
    SquareNonNegative(p.y);
    SquareNonNegative(p.z);
  }

  /** The length of the difference of two vectors: the common body of
      `calculateDistance` and `calculateRelativeVelocity`. */
  function Separation(m: MathLib, p: Vec3, q: Vec3): (r: real)
    requires SqrtLaws(m)
    ensures 0.0 <= r
    ensures p == q ==> r == 0.0
  {
    SelfDotNonNegative(Sub(p, q));
    m.sqrt(Dot(Sub(p, q), Sub(p, q)))
  }

  /** Euclidean distance between two points. */
  function Distance(m: MathLib, p1: Vec3, p2: Vec3): (r: real)
    requires SqrtLaws(m)
    ensures 0.0 <= r
    ensures p1 == p2 ==> r == 0.0
  {
    Separation(m, p1, p2)
  }

  /** Magnitude of the difference of two velocities. */
  function RelativeVelocity(m: MathLib, v1: Vec3, v2: Vec3): (r: real)
    requires SqrtLaws(m)
    ensures 0.0 <= r
    ensures v1 == v2 ==> r == 0.0
  {
    Separation(m, v1, v2)
  }

  /** Distance and relative velocity do not depend on argument order. */
  lemma SeparationSymmetric(m: MathLib, p: Vec3, q: Vec3)
    requires SqrtLaws(m)
    ensures Distance(m, p, q) == Distance(m, q, p)
    ensures RelativeVelocity(m, p, q) == RelativeVelocity(m, q, p)
  {
    var d, e := Sub(p, q), Sub(q, p);
    assert d.x * d.x == e.x * e.x;
    assert d.y * d.y == e.y * e.y;
    assert d.z * d.z == e.z * e.z;
    assert Dot(d, d) == Dot(e, e);
  }

  /** Commits `deltaTime` of motion into the orbit angle. The result is the
      same orbit re-based in time: its phase at `t` is the old phase at
      `t + deltaTime`, and no field other than the angle differs. */
  function UpdateSatelliteOrbit(s: Satellite, deltaTime: real): (r: Satellite)
    ensures r.(orbitAngle := s.orbitAngle) == s
    ensures forall t :: Phase(r, t) == Phase(s, t + deltaTime)
  {
    s.(orbitAngle := s.orbitAngle + s.orbitSpeed * deltaTime)
  }

  /** Committing the angle is the same as shifting the clock: position and
      velocity of the updated satellite at `t` are those of the original at
      `t + deltaTime`. */
  lemma CommitIsTimeShift(m: MathLib, s: Satellite, deltaTime: real, t: real)
    ensures Position(m, UpdateSatelliteOrbit(s, deltaTime), t) == Position(m, s, t + deltaTime)
    ensures Velocity(m, UpdateSatelliteOrbit(s, deltaTime), t) == Velocity(m, s, t + deltaTime)
  {
    assert Phase(UpdateSatelliteOrbit(s, deltaTime), t) == Phase(s, t + deltaTime);
  }

  /** Two commits add up: the update is an action of the additive group of time. */
  lemma CommitsCompose(s: Satellite, d1: real, d2: real)
    ensures UpdateSatelliteOrbit(UpdateSatelliteOrbit(s, d1), d2) == UpdateSatelliteOrbit(s, d1 + d2)
  {
    assert s.orbitSpeed * d1 + s.orbitSpeed * d2 == s.orbitSpeed * (d1 + d2);
  }

  /** With cos^2 + sin^2 = 1 the projection keeps the satellite on the sphere
      of radius `orbitRadius` around the central body. */
  lemma PositionOnSphere(m: MathLib, s: Satellite, t: real)
    requires PythagoreanIdentity(m)
    ensures Dot(Position(m, s, t), Position(m, s, t)) == s.orbitRadius * s.orbitRadius
  {
    var a := Phase(s, t);
    var R, c, sn, ci, si := s.orbitRadius, m.cos(a), m.sin(a), m.cos(s.inclination), m.sin(s.inclination);
    assert ci * ci + si * si == 1.0;
    assert c * c + sn * sn == 1.0;
    var p := Position(m, s, t);
    calc {
      Dot(p, p);
      (R * c * ci) * (R * c * ci) + (R * sn) * (R * sn) + (R * c * si) * (R * c * si);
      R * R * (c * c) * (ci * ci + si * si) + R * R * (sn * sn);
      R * R * (c * c) + R * R * (sn * sn);
      R * R * (c * c + sn * sn);
      R * R;
    }
  }

  /** With cos^2 + sin^2 = 1 the velocity is tangent to the path: it is
      orthogonal to the position at every time. */
  lemma VelocityTangent(m: MathLib, s: Satellite, t: real)
    requires PythagoreanIdentity(m)
    ensures Dot(Position(m, s, t), Velocity(m, s, t)) == 0.0
  {
    var a := Phase(s, t);
    var R, w, c, sn, ci, si := s.orbitRadius, s.orbitSpeed, m.cos(a), m.sin(a), m.cos(s.inclination), m.sin(s.inclination);
    assert ci * ci + si * si == 1.0;
    var p, v := Position(m, s, t), Velocity(m, s, t);
    calc {
      Dot(p, v);
      (R * c * ci) * (-R * w * sn * ci) + (R * sn) * (R * w * c) + (R * c * si) * (-R * w * sn * si);
      R * R * w * c * sn * (1.0 - (ci * ci + si * si));
      0.0;
    }
  }

  /** With cos^2 + sin^2 = 1 the speed is constant: |v|^2 = (R * w)^2. */
  lemma SpeedConstant(m: MathLib, s: Satellite, t: real)
    requires PythagoreanIdentity(m)
    ensures Dot(Velocity(m, s, t), Velocity(m, s, t)) == (s.orbitRadius * s.orbitSpeed) * (s.orbitRadius * s.orbitSpeed)
  {
    var a := Phase(s, t);
    var R, w, c, sn, ci, si := s.orbitRadius, s.orbitSpeed, m.cos(a), m.sin(a), m.cos(s.inclination), m.sin(s.inclination);
    assert ci * ci + si * si == 1.0;
    assert c * c + sn * sn == 1.0;
    var v := Velocity(m, s, t);
    calc {
      Dot(v, v);
      (R * w * sn * ci) * (R * w * sn * ci) + (R * w * c) * (R * w * c) + (R * w * sn * si) * (R * w * sn * si);
      (R * w) * (R * w) * ((sn * sn) * (ci * ci + si * si) + c * c);
      (R * w) * (R * w) * (sn * sn + c * c);
      (R * w) * (R * w);
    }
  }
}
