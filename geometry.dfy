/** Plain geometric values shared by the daylight evaluation model: points,
    vectors, lines, closed intervals and affine placements. Every quantity is a
    `real`; square roots are avoided by comparing squared lengths. */
module Geometry {

  /** Feet to metres (the Elements library's Units.FeetToMeters). */
  function FeetToMeters(ft: real): real
  {
    ft * 0.3048
  }

  datatype Vec3 = Vec3(x: real, y: real, z: real)

  /** A point of the (plan angle, section angle) chart, or of its drawing. */
  datatype Vec2 = Vec2(x: real, y: real)

  function Add(a: Vec3, b: Vec3): Vec3
  {
    Vec3(a.x + b.x, a.y + b.y, a.z + b.z)
  }

  function Sub(a: Vec3, b: Vec3): Vec3
  {
    Vec3(a.x - b.x, a.y - b.y, a.z - b.z)
  }

  function Scale(a: Vec3, k: real): Vec3
  {
    Vec3(a.x * k, a.y * k, a.z * k)
  }

  function Dot(a: Vec3, b: Vec3): real
  {
    a.x * b.x + a.y * b.y + a.z * b.z
  }

  /** The squared Euclidean length; the model compares lengths through it. */
  function LengthSq(a: Vec3): (r: real)
    ensures r >= 0.0
  {
    a.x * a.x + a.y * a.y + a.z * a.z
  }

  function DistanceSq(a: Vec3, b: Vec3): real
  {
    LengthSq(Sub(b, a))
  }

  /** A straight segment from start to end. */
  datatype Line = Line(start: Vec3, end: Vec3)

  /** The point at parameter t along the segment (Line.PointAt). */
  function PointAt(l: Line, t: real): Vec3
  {
    Add(l.start, Scale(Sub(l.end, l.start), t))
  }

  function Midpoint(l: Line): (m: Vec3)
    ensures Sub(m, l.start) == Sub(l.end, m)
  {
    PointAt(l, 0.5)
  }

  function Direction(l: Line): Vec3
  {
    Sub(l.end, l.start)
  }

  function LineLengthSq(l: Line): real
  {
    LengthSq(Direction(l))
  }

  /** A closed interval [min, max] (Domain1d). */
  datatype Domain1d = Domain1d(min: real, max: real)

  predicate WellFormed(d: Domain1d)
  {
    d.min <= d.max
  }

  predicate InDomain(x: real, d: Domain1d)
  {
    d.min <= x <= d.max
  }

  function Width(d: Domain1d): real
  {
    d.max - d.min
  }

  /** `inner` lies inside `outer`. */
  predicate Within(inner: Domain1d, outer: Domain1d)
  {
    outer.min <= inner.min <= inner.max <= outer.max
  }

  /** An affine placement: the images of the three unit axes and of the origin.
      Applying it to a point is the library's transform of a vertex into
      global coordinates. */
  datatype Transform = Transform(xAxis: Vec3, yAxis: Vec3, zAxis: Vec3, origin: Vec3)

  function IdentityTransform(): Transform
  {
    Transform(Vec3(1.0, 0.0, 0.0), Vec3(0.0, 1.0, 0.0), Vec3(0.0, 0.0, 1.0), Vec3(0.0, 0.0, 0.0))
  }

  function Translation(v: Vec3): Transform
  {
    Transform(Vec3(1.0, 0.0, 0.0), Vec3(0.0, 1.0, 0.0), Vec3(0.0, 0.0, 1.0), v)
  }

  function Apply(t: Transform, p: Vec3): Vec3
  {
    Add(t.origin, Add(Scale(t.xAxis, p.x), Add(Scale(t.yAxis, p.y), Scale(t.zAxis, p.z))))
  }
}
