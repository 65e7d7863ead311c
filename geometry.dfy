/** Vectors, rays, hit records and sample sets.
    Normalisation, vector length and the hemisphere reorientation are
    foreign helpers; they are supplied as a `Maths` record of function values. */
module Geometry {

  datatype Vec3 = Vec3(x: real, y: real, z: real)

  const Zero := Vec3(0.0, 0.0, 0.0)
  const One := Vec3(1.0, 1.0, 1.0)

  function Plus(a: Vec3, b: Vec3): Vec3 {
    Vec3(a.x + b.x, a.y + b.y, a.z + b.z)
  }

  function Minus(a: Vec3, b: Vec3): Vec3 {
    Vec3(a.x - b.x, a.y - b.y, a.z - b.z)
  }

  function Times(a: Vec3, s: real): Vec3 {
    Vec3(a.x * s, a.y * s, a.z * s)
  }

  function Over(a: Vec3, s: real): Vec3
    requires s != 0.0
  {
    Vec3(a.x / s, a.y / s, a.z / s)
  }

  function Dot(a: Vec3, b: Vec3): real {
    a.x * b.x + a.y * b.y + a.z * b.z
  }

  /** The foreign vector helpers: `Normalize`, `Length` and
      `center_around_normal(local_direction, normal)`. */
  datatype Maths = Maths(
    normalize: Vec3 -> Vec3,
    length: Vec3 -> real,
    centerAroundNormal: (Vec3, Vec3) -> Vec3)

  /** How far a ray may travel: unbounded by default, bounded for shadow rays. */
  datatype Extent = Unbounded | UpTo(limit: real)

  datatype Ray = Ray(origin: Vec3, direction: Vec3, extent: Extent)

  /** `Ray(origin, direction, extent)`: the constructor normalises the direction. */
  function MakeRay(m: Maths, origin: Vec3, direction: Vec3, extent: Extent): (r: Ray)
    ensures r.origin == origin && r.extent == extent
    ensures r.direction == m.normalize(direction)
  {
    Ray(origin, m.normalize(direction), extent)
  }

  /** `Ray(direction=d)`: a camera ray from the default origin, unbounded. */
  function CameraRay(m: Maths, direction: Vec3): (r: Ray)
    ensures r.origin == Zero && r.extent == Unbounded
    ensures r.direction == m.normalize(direction)
  {
    MakeRay(m, Zero, direction, Unbounded)
  }

  /** The result of a nearest-hit query; the fields exist only on a hit. */
  datatype HitRecord =
    | NoHit
    | Hit(point: Vec3, normal: Vec3, distance: real, primitive: nat)

  /** Directions in the canonical hemisphere and their densities, in the order
      the sampler produced them. */
  datatype SampleSet = SampleSet(directions: seq<Vec3>, probabilities: seq<real>)
}
