/** The values the tower is built from: slide axes, ground-plane footprints and boxes. */
module Blocks {

  /** The two horizontal axes a layer can slide along. */
  datatype Axis = X | Z

  /** The axis a layer slides along; the first base layer and every falling fragment have none. */
  datatype Direction = NoDirection | Along(axis: Axis)

  function Other(a: Axis): (b: Axis)
    ensures b != a
  {
    if a == X then Z else X
  }

  /** Centre and extents of a box in the ground plane: the arguments of addLayer and addOverhang. */
  datatype Footprint = Footprint(x: real, z: real, width: real, depth: real)
  {
    /** Extent along an axis: width along x, depth along z. */
    function Extent(a: Axis): real
    {
      if a == X then width else depth
    }

    /** Centre coordinate along an axis. */
    function Coord(a: Axis): real
    {
      if a == X then x else z
    }

    /** Lower and upper edge along an axis. */
    function Lo(a: Axis): real
    {
      Coord(a) - Extent(a) / 2.0
    }

    function Hi(a: Axis): real
    {
      Coord(a) + Extent(a) / 2.0
    }
  }

  /** A layer of the tower or a falling fragment: its footprint, its height, its slide
      direction and the id of the physics body created with it. */
  datatype Box = Box(foot: Footprint, y: real, direction: Direction, body: nat)

  function Abs(r: real): (m: real)
    ensures m >= 0.0 && (m == r || m == -r)
  {
    if r < 0.0 then -r else r
  }

  /** JavaScript's Math.sign on a number. */
  function Sign(r: real): (s: real)
    ensures s == 1.0 || s == -1.0 || s == 0.0
    ensures s == 1.0 <==> r > 0.0
    ensures s == -1.0 <==> r < 0.0
  {
    if r > 0.0 then 1.0 else if r < 0.0 then -1.0 else 0.0
  }

  /** A number times a sign (1, -1 or 0), written without a product. */
  function Scale(r: real, sign: real): (v: real)
    ensures sign > 0.0 ==> v == r
    ensures sign < 0.0 ==> v == -r
    ensures sign == 0.0 ==> v == 0.0
  {
    if sign > 0.0 then r else if sign < 0.0 then -r else 0.0
  }

  /** Scaling by a sign is the product the source writes. */
  lemma ScaleIsProduct(r: real, sign: real)
    requires sign == 1.0 || sign == -1.0 || sign == 0.0
    ensures Scale(r, sign) == r * sign
  {
  }

  /** A number is its sign times its size. */
  lemma SignTimesAbs(r: real)
    ensures Sign(r) * Abs(r) == r
  {
  }

  function Max(a: real, b: real): real
  {
    if a < b then b else a
  }

  function Min(a: real, b: real): real
  {
    if a < b then a else b
  }
}
