/** The data the palletization service returns: pallets made of layers made of boxes.
    JavaScript numbers are modelled as exact reals (coordinates, dimensions, weights)
    or integers (indices). */
module Packing {

  datatype Option<T> = None | Some(value: T)

  /** A point or a vector; in data space x is the width axis, y the length (depth)
      axis and z the height axis. */
  datatype Vec3 = Vec3(x: real, y: real, z: real)

  datatype Dimensions = Dimensions(length: real, width: real, height: real)

  /** `position` is the box's minimum corner in data space. */
  datatype Box = Box(
    articleId: string,
    weightKg: real,
    canRotate: bool,
    maxLoad: real,
    dimensions: Dimensions,
    position: Vec3)

  datatype Layer = Layer(layerIndex: int, boxes: seq<Box>)

  datatype Pallet = Pallet(palletIndex: int, layers: seq<Layer>)

  function Add(a: Vec3, b: Vec3): Vec3
  {
    Vec3(a.x + b.x, a.y + b.y, a.z + b.z)
  }

  function Sub(a: Vec3, b: Vec3): Vec3
  {
    Vec3(a.x - b.x, a.y - b.y, a.z - b.z)
  }

  function Midpoint(a: Vec3, b: Vec3): Vec3
  {
    Vec3((a.x + b.x) / 2.0, (a.y + b.y) / 2.0, (a.z + b.z) / 2.0)
  }

  /** Exchanges the second and third coordinates: data (x, y, z) becomes
      render (x, z, y), i.e. (width axis, height axis, depth axis). */
  function SwapYZ(v: Vec3): Vec3
  {
    Vec3(v.x, v.z, v.y)
  }

  /** Points of the closed axis-aligned box with minimum corner `lo` and extents `ext`. */
  predicate InCornerBox(p: Vec3, lo: Vec3, ext: Vec3)
  {
    lo.x <= p.x <= lo.x + ext.x &&
    lo.y <= p.y <= lo.y + ext.y &&
    lo.z <= p.z <= lo.z + ext.z
  }

  /** Points of the closed axis-aligned box with centre `c` and extents `ext`
      (the convention of a centred box geometry). */
  predicate InCentredBox(p: Vec3, c: Vec3, ext: Vec3)
  {
    c.x - ext.x / 2.0 <= p.x <= c.x + ext.x / 2.0 &&
    c.y - ext.y / 2.0 <= p.y <= c.y + ext.y / 2.0 &&
    c.z - ext.z / 2.0 <= p.z <= c.z + ext.z / 2.0
  }

  /** Number of coordinates in which two points differ. */
  function DiffCount(a: Vec3, b: Vec3): (n: nat)
    ensures n <= 3
    ensures n == 0 <==> a == b
  {
    (if a.x != b.x then 1 else 0) + (if a.y != b.y then 1 else 0) + (if a.z != b.z then 1 else 0)
  }
}
