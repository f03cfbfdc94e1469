/** Vectors, quaternions and poses as three.js keeps them on an Object3D,
    with real numbers in place of IEEE doubles. */
module Geometry {

  datatype Vec3 = Vec3(x: real, y: real, z: real)

  /** A rotation quaternion. three.js does not normalise a quaternion set
      through `Quaternion.set`, so neither does the model. */
  datatype Quat = Quat(x: real, y: real, z: real, w: real)

  /** The transform of an object in the scene: `position` and `quaternion`. */
  datatype Pose = Pose(position: Vec3, rotation: Quat)

  /** A freshly constructed `THREE.Group` sits at the origin with the
      identity rotation. */
  const NeutralPose: Pose := Pose(Vec3(0.0, 0.0, 0.0), Quat(0.0, 0.0, 0.0, 1.0))

  function Square(a: real): (s: real)
    ensures 0.0 <= s
    ensures a == 0.0 ==> s == 0.0
  {
    a * a
  }

  /** `Vector3.distanceToSquared`: the squared Euclidean distance, with no
      square root taken. */
  function DistanceSquared(a: Vec3, b: Vec3): (d2: real)
    ensures 0.0 <= d2
    ensures a == b ==> d2 == 0.0
  {
    Square(a.x - b.x) + Square(a.y - b.y) + Square(a.z - b.z)
  }

  lemma DistanceSquaredSymmetric(a: Vec3, b: Vec3)
    ensures DistanceSquared(a, b) == DistanceSquared(b, a)
  {

  }

  /** The viewer at the origin and a participant at (10, 0, 10), (5, 0, 5)
      and (1, 0, 1). */
  lemma DistanceExamples()
    ensures DistanceSquared(Vec3(0.0, 0.0, 0.0), Vec3(10.0, 0.0, 10.0)) == 200.0
    ensures DistanceSquared(Vec3(0.0, 0.0, 0.0), Vec3(5.0, 0.0, 5.0)) == 50.0
    ensures DistanceSquared(Vec3(0.0, 0.0, 0.0), Vec3(1.0, 0.0, 1.0)) == 2.0
  {
    assert Square(-10.0) == 100.0;
    assert Square(-5.0) == 25.0;
    assert Square(-1.0) == 1.0;
  }
}
