/** Geometry of PalletVisualization.js: the corner list of the box detail card
    (minimum-corner convention, data axes) and the placement of a box in the 3D
    scene (centre convention, axes permuted to width, height, depth). */
module CardGeometry {
  import opened Packing

  /** The data-space extents (width, length, height) along (x, y, z). */
  function DataExtents(b: Box): Vec3
  {
    Vec3(b.dimensions.width, b.dimensions.length, b.dimensions.height)
  }

  /** The eight corners listed by the detail card, in the card's order. */
  function CardCorners(b: Box): (cs: seq<Vec3>)
    ensures |cs| == 8
    ensures cs[0] == b.position
    ensures cs[7] == Add(b.position, DataExtents(b))
  {
    var p, w, l, h := b.position, b.dimensions.width, b.dimensions.length, b.dimensions.height;
    [ Vec3(p.x, p.y, p.z),
      Vec3(p.x + w, p.y, p.z),
      Vec3(p.x, p.y + l, p.z),
      Vec3(p.x + w, p.y + l, p.z),
      Vec3(p.x, p.y, p.z + h),
      Vec3(p.x + w, p.y, p.z + h),
      Vec3(p.x, p.y + l, p.z + h),
      Vec3(p.x + w, p.y + l, p.z + h) ]
  }

  /** `e` when the flag is set, zero otherwise. */
  function Step(on: bool, e: real): real
  {
    if on then e else 0.0
  }

  /** A point whose every coordinate is either the minimum or the maximum of the box. */
  predicate IsCornerOf(p: Vec3, b: Box)
  {
    (p.x == b.position.x || p.x == b.position.x + b.dimensions.width) &&
    (p.y == b.position.y || p.y == b.position.y + b.dimensions.length) &&
    (p.z == b.position.z || p.z == b.position.z + b.dimensions.height)
  }

  /** The card lists the corners in binary order: bit 0 of the index adds the width,
      bit 1 the length and bit 2 the height. */
  lemma CardCornerAt(b: Box, i: nat)
    requires i < 8
    ensures CardCorners(b)[i] ==
      Add(b.position, Vec3(Step(i % 2 == 1, b.dimensions.width),
                           Step((i / 2) % 2 == 1, b.dimensions.length),
                           Step(i / 4 == 1, b.dimensions.height)))
  {
  }

  /** The card's corners are exactly the 8 combinations of minimum and maximum per axis. */
  lemma CardCornersAreCombinations(b: Box)
    ensures forall c :: c in CardCorners(b) ==> IsCornerOf(c, b)
    ensures forall p :: IsCornerOf(p, b) ==> p in CardCorners(b)
  {
  }

  /** With non-negative dimensions every listed corner lies in the box. */
  lemma CardCornersInsideBox(b: Box)
    requires b.dimensions.width >= 0.0 && b.dimensions.length >= 0.0 && b.dimensions.height >= 0.0
    ensures forall c :: c in CardCorners(b) ==> InCornerBox(c, b.position, DataExtents(b))
  {
  }

  /** With strictly positive dimensions the 8 listed corners are pairwise distinct. */
  lemma CardCornersDistinct(b: Box)
    requires b.dimensions.width > 0.0 && b.dimensions.length > 0.0 && b.dimensions.height > 0.0
    ensures forall i, j :: 0 <= i < 8 && 0 <= j < 8 && i != j ==> CardCorners(b)[i] != CardCorners(b)[j]
  {
  }

  /** The position given to the mesh: the box's centre with data axes (x, y, z)
      mapped to render axes (x, z, y). It is the midpoint of the card's first and
      last corners after swapping the y and z axes. */
  function RenderCentre(b: Box): (c: Vec3)
    ensures c == SwapYZ(Midpoint(CardCorners(b)[0], CardCorners(b)[7]))
  {
    Vec3(b.position.x + b.dimensions.width / 2.0,
         b.position.z + b.dimensions.height / 2.0,
         b.position.y + b.dimensions.length / 2.0)
  }

  /** The extents given to the centred box geometry, in render axis order. */
  function RenderExtents(b: Box): (e: Vec3)
    ensures e == SwapYZ(DataExtents(b))
  {
    Vec3(b.dimensions.width, b.dimensions.height, b.dimensions.length)
  }

  function Half(v: Vec3): Vec3
  {
    Vec3(v.x / 2.0, v.y / 2.0, v.z / 2.0)
  }

  /** The rendered box spans from (x, z, y) to (x + width, z + height, y + length):
      the card's first and last corners with y and z swapped. */
  lemma RenderBoxBounds(b: Box)
    ensures Sub(RenderCentre(b), Half(RenderExtents(b))) == SwapYZ(CardCorners(b)[0])
    ensures Add(RenderCentre(b), Half(RenderExtents(b))) == SwapYZ(CardCorners(b)[7])
    ensures SwapYZ(CardCorners(b)[0]) == Vec3(b.position.x, b.position.z, b.position.y)
  {
  }

  /** The rendered (centred) box is exactly the data box carried over by the axis swap. */
  lemma RenderBoxIsSwappedDataBox(b: Box)
    ensures forall p :: InCentredBox(p, RenderCentre(b), RenderExtents(b)) <==>
                        InCornerBox(SwapYZ(p), b.position, DataExtents(b))
  {
  }

  /** A box at the origin with width 100, height 50 and length 200 is drawn around
      (50, 25, 100), and its card lists (0, 0, 0) and (100, 200, 50). */
  lemma OriginBoxExample(b: Box)
    requires b.position == Vec3(0.0, 0.0, 0.0)
    requires b.dimensions.width == 100.0 && b.dimensions.height == 50.0 && b.dimensions.length == 200.0
    ensures RenderCentre(b) == Vec3(50.0, 25.0, 100.0)
    ensures CardCorners(b)[0] == Vec3(0.0, 0.0, 0.0)
    ensures CardCorners(b)[7] == Vec3(100.0, 200.0, 50.0)
  {
  }
}
