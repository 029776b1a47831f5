/** BoxDetails.js: a component (exported nowhere, so never shown) that treats a
    box's `position` as its centre and lists 8 corners at plus or minus the
    half-extents, with the axes in render order (x, z, y). */
module BoxDetails {
  import opened Packing
  import CardGeometry

  /** (dx, dy, dz) = (width / 2, height / 2, length / 2). */
  function HalfExtents(b: Box): (d: Vec3)
    ensures Add(d, d) == Vec3(b.dimensions.width, b.dimensions.height, b.dimensions.length)
  {
    Vec3(b.dimensions.width / 2.0, b.dimensions.height / 2.0, b.dimensions.length / 2.0)
  }

  /** The centre the component displays: the position read in the order x, z, y. */
  function DisplayedCentre(b: Box): (c: Vec3)
    ensures SwapYZ(c) == b.position
  {
    Vec3(b.position.x, b.position.z, b.position.y)
  }

  /** The 8 corners in the component's order (corners 1 to 8 are indices 0 to 7). */
  function CentreCorners(b: Box): (cs: seq<Vec3>)
    ensures |cs| == 8
    ensures cs[0] == Sub(DisplayedCentre(b), HalfExtents(b))
    ensures cs[6] == Add(DisplayedCentre(b), HalfExtents(b))
  {
    var x, y, z := b.position.x, b.position.y, b.position.z;
    var d := HalfExtents(b);
    var dx, dy, dz := d.x, d.y, d.z;
    [ Vec3(x - dx, z - dy, y - dz),
      Vec3(x + dx, z - dy, y - dz),
      Vec3(x + dx, z - dy, y + dz),
      Vec3(x - dx, z - dy, y + dz),
      Vec3(x - dx, z + dy, y - dz),
      Vec3(x + dx, z + dy, y - dz),
      Vec3(x + dx, z + dy, y + dz),
      Vec3(x - dx, z + dy, y + dz) ]
  }

  function Signed(plus: bool, e: real): real
  {
    if plus then e else -e
  }

  /** The point (x ± dx, z ± dy, y ± dz) with the given choice of signs. */
  function SignedCorner(b: Box, sx: bool, sy: bool, sz: bool): Vec3
  {
    Add(DisplayedCentre(b), Vec3(Signed(sx, HalfExtents(b).x),
                                 Signed(sy, HalfExtents(b).y),
                                 Signed(sz, HalfExtents(b).z)))
  }

  /** Sign pattern of corner i: corners 0-3 are the lower face, 4-7 the upper one,
      and each face is walked (-,-), (+,-), (+,+), (-,+) in (x, depth). */
  predicate PlusX(i: nat) { i % 4 == 1 || i % 4 == 2 }
  predicate PlusY(i: nat) { i >= 4 }
  predicate PlusZ(i: nat) { i % 4 >= 2 }

  lemma CentreCornerAt(b: Box, i: nat)
    requires i < 8
    ensures CentreCorners(b)[i] == SignedCorner(b, PlusX(i), PlusY(i), PlusZ(i))
  {
  }

  /** The listed corners are exactly the 8 sign combinations around the displayed centre. */
  lemma CentreCornersAreSignCombinations(b: Box)
    ensures forall c :: c in CentreCorners(b) <==>
      exists sx: bool, sy: bool, sz: bool :: c == SignedCorner(b, sx, sy, sz)
  {
    var cs := CentreCorners(b);
    forall c | c in cs ensures exists sx: bool, sy: bool, sz: bool :: c == SignedCorner(b, sx, sy, sz) {
      var i :| 0 <= i < 8 && cs[i] == c;
      CentreCornerAt(b, i);
    }
    forall sx: bool, sy: bool, sz: bool ensures SignedCorner(b, sx, sy, sz) in cs {
      var i := (if sy then 4 else 0) + (if sz then (if sx then 2 else 3) else (if sx then 1 else 0));
      CentreCornerAt(b, i);
    }
  }

  /** With positive dimensions the 8 corners are pairwise distinct. */
  lemma CentreCornersDistinct(b: Box)
    requires b.dimensions.width > 0.0 && b.dimensions.length > 0.0 && b.dimensions.height > 0.0
    ensures forall i, j :: 0 <= i < 8 && 0 <= j < 8 && i != j ==> CentreCorners(b)[i] != CentreCorners(b)[j]
  {
  }

  /** The arithmetic mean of eight points. */
  function Centroid(cs: seq<Vec3>): Vec3
    requires |cs| == 8
  {
    var s := Add(Add(Add(cs[0], cs[1]), Add(cs[2], cs[3])), Add(Add(cs[4], cs[5]), Add(cs[6], cs[7])));
    Vec3(s.x / 8.0, s.y / 8.0, s.z / 8.0)
  }

  /** The corners are centred on the point the component displays as the centre. */
  lemma CentroidIsDisplayedCentre(b: Box)
    ensures Centroid(CentreCorners(b)) == DisplayedCentre(b)
  {
  }

  /** Corners 1-4 all lie at height z - dy, corners 5-8 at z + dy, and corner i + 4
      is corner i raised by the full height. */
  lemma LowerAndUpperFaces(b: Box)
    ensures forall i :: 0 <= i < 4 ==> CentreCorners(b)[i].y == b.position.z - HalfExtents(b).y
    ensures forall i :: 4 <= i < 8 ==> CentreCorners(b)[i].y == b.position.z + HalfExtents(b).y
    ensures forall i :: 0 <= i < 4 ==>
      CentreCorners(b)[i + 4] == Add(CentreCorners(b)[i], Vec3(0.0, b.dimensions.height, 0.0))
  {
  }

  /** The next corner when walking a face (0 → 1 → 2 → 3 → 0 and 4 → 5 → 6 → 7 → 4). */
  function NextOnFace(i: nat): nat
  {
    if i % 4 == 3 then i - 3 else i + 1
  }

  /** Within each face, cyclically consecutive corners differ in exactly one
      coordinate, so each face is traced as a rectangle. */
  lemma FacesAreRectangles(b: Box)
    requires b.dimensions.width != 0.0 && b.dimensions.length != 0.0
    ensures forall i :: 0 <= i < 8 ==>
      NextOnFace(i) < 8 && DiffCount(CentreCorners(b)[i], CentreCorners(b)[NextOnFace(i)]) == 1
  {
  }

  /** Corners 1 and 7 are opposite: they are one full extent apart on every axis. */
  lemma OppositeCorners(b: Box)
    ensures Sub(CentreCorners(b)[6], CentreCorners(b)[0]) ==
      Vec3(b.dimensions.width, b.dimensions.height, b.dimensions.length)
  {
  }

  /** The box with the same dimensions whose position is the data-space centre of `b`. */
  function CentredAt(b: Box): (c: Box)
    ensures c.dimensions == b.dimensions
    ensures DisplayedCentre(c) == CardGeometry.RenderCentre(b)
  {
    b.(position := Vec3(b.position.x + b.dimensions.width / 2.0,
                        b.position.y + b.dimensions.length / 2.0,
                        b.position.z + b.dimensions.height / 2.0))
  }

  /** The two corner conventions agree: the centre-based corners around the centre
      of `b` are exactly the detail card's corners of `b` with y and z swapped. */
  lemma CentreCornersMatchCardCorners(b: Box)
    ensures forall p :: p in CentreCorners(CentredAt(b)) <==> SwapYZ(p) in CardGeometry.CardCorners(b)
  {
    var c := CentredAt(b);
    var cs, card := CentreCorners(c), CardGeometry.CardCorners(b);
    forall p | p in cs ensures SwapYZ(p) in card {
      var i :| 0 <= i < 8 && cs[i] == p;
      CentreCornerAt(c, i);
      CardGeometry.CardCornersAreCombinations(b);
      assert CardGeometry.IsCornerOf(SwapYZ(p), b);
    }
    forall p | SwapYZ(p) in card ensures p in cs {
      CardGeometry.CardCornersAreCombinations(b);
      CentreCornersAreSignCombinations(c);
      var q := SwapYZ(p);
      assert p == SignedCorner(c, q.x != b.position.x, q.z != b.position.z, q.y != b.position.y);
    }
  }
}
