/** The records the simulation store keeps (src/store/satelliteStore.ts).
    A `[number, number, number]` triple is a `Vec3`; a JavaScript number is
    a `real`; a `Date.now()` timestamp is an `int`. */
module Entities {

  /** A value or JavaScript's `undefined` (what `Array.prototype.find` returns on a miss). */
  datatype Option<T> = None | Some(value: T)

  datatype Vec3 = Vec3(x: real, y: real, z: real)

  datatype Satellite = Satellite(
    id: string,
    name: string,
    position: Vec3,
    velocity: Vec3,
    color: string,
    orbitRadius: real,
    orbitSpeed: real,
    orbitAngle: real,
    inclination: real,
    mass: real,
    size: real)

  datatype CollisionPrediction = CollisionPrediction(
    satellite1Id: string,
    satellite2Id: string,
    timeToCollision: real,
    collisionPoint: Vec3,
    probability: real)

  datatype Explosion = Explosion(id: string, position: Vec3, color: string, timestamp: int)

  /** No two elements share a key: the store's id discipline. */
  ghost predicate UniqueBy<T, K>(s: seq<T>, key: T -> K) {
    forall i, j :: 0 <= i < j < |s| ==> key(s[i]) != key(s[j])
  }
}
