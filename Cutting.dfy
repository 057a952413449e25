/** The cut: the top layer keeps the part that overlaps the layer below, the rest falls. */
module Cutting {
  import opened Blocks
  import opened Slide

  /** Signed offset of the top layer from the layer below, along the top's slide axis: its
      sign tells on which side of the layer below the top has stopped. */
  function Delta(top: Box, prev: Box): (d: real)
    requires top.direction.Along?
    ensures var a := top.direction.axis;
      prev.foot.Coord(a) + d == top.foot.Coord(a) &&
      (d > 0.0 <==> top.foot.Coord(a) > prev.foot.Coord(a)) &&
      (d < 0.0 <==> top.foot.Coord(a) < prev.foot.Coord(a))
  {
    top.foot.Coord(top.direction.axis) - prev.foot.Coord(top.direction.axis)
  }

  /** Length of the part of the top layer still over the layer below (at most the top's size;
      zero or less is a miss). */
  function Overlap(top: Box, prev: Box): (o: real)
    requires top.direction.Along?
    ensures o <= top.foot.Extent(top.direction.axis)
    ensures o == top.foot.Extent(top.direction.axis) <==> top.foot.Coord(top.direction.axis) == prev.foot.Coord(top.direction.axis)
  {
    top.foot.Extent(top.direction.axis) - Abs(Delta(top, prev))
  }

  /** cutBox: the top layer shrinks to the overlap along its slide axis and moves back by half
      the offset, so that it is centred over what remains; across the axis nothing changes. */
  function CutBox(top: Box, overlap: real, delta: real): (r: Box)
    requires top.direction.Along?
    ensures var a := top.direction.axis;
      r.foot.Extent(a) == overlap && r.foot.Extent(Other(a)) == top.foot.Extent(Other(a)) &&
      r.foot.Coord(a) == top.foot.Coord(a) - delta / 2.0 && r.foot.Coord(Other(a)) == top.foot.Coord(Other(a))
    ensures r.y == top.y && r.direction == top.direction && r.body == top.body
  {
    var a := top.direction.axis;
    var f := top.foot;
    top.(foot := Footprint(
      if a == X then f.x - delta / 2.0 else f.x,
      if a == Z then f.z - delta / 2.0 else f.z,
      if a == X then overlap else f.width,
      if a == Z then overlap else f.depth))
  }

  /** The fragment cut off: as long as the offset along the axis, placed next to the kept block
      on the side of the offset. */
  function OverhangPiece(kept: Footprint, a: Axis, overlap: real, delta: real): (f: Footprint)
    ensures f.Extent(a) == Abs(delta)
    ensures f.Coord(a) == kept.Coord(a) + Scale(overlap / 2.0 + Abs(delta) / 2.0, Sign(delta))
    ensures f.Extent(Other(a)) == kept.Extent(Other(a)) && f.Coord(Other(a)) == kept.Coord(Other(a))
    // next to a kept block of the overlap's length, on the side of the offset
    ensures kept.Extent(a) == overlap && delta > 0.0 ==> f.Lo(a) == kept.Hi(a)
    ensures kept.Extent(a) == overlap && delta < 0.0 ==> f.Hi(a) == kept.Lo(a)
  {
    var overhangSize := Abs(delta);
    var shift := Scale(overlap / 2.0 + overhangSize / 2.0, Sign(delta));
    Footprint(
      if a == X then kept.x + shift else kept.x,
      if a == Z then kept.z + shift else kept.z,
      if a == X then overhangSize else kept.width,
      if a == Z then overhangSize else kept.depth)
  }

  /** Result of committing the top layer: a miss, or the kept layer and the falling fragment. */
  datatype Split = Miss | Hit(kept: Box, piece: Footprint)

  /** The decision and geometry of splitBlockAndAddNextOneIfOverlaps: a hit exactly when some
      of the top layer is still over the layer below; the kept block stays in the top's layer
      and is no wider or deeper than the top. */
  function SplitTop(top: Box, prev: Box): (r: Split)
    requires top.direction.Along?
    ensures r.Miss? <==> Overlap(top, prev) <= 0.0
    ensures r.Hit? ==> r.kept.y == top.y && r.kept.direction == top.direction && r.kept.body == top.body
    ensures r.Hit? ==> r.kept.foot.width <= top.foot.width && r.kept.foot.depth <= top.foot.depth
  {
    var overlap := Overlap(top, prev);
    var delta := Delta(top, prev);
    if overlap > 0.0 then
      var kept := CutBox(top, overlap, delta);
      Hit(kept, OverhangPiece(kept.foot, top.direction.axis, overlap, delta))
    else
      Miss
  }

  /** On a hit, the kept block and the falling fragment partition the top layer along the
      slide axis, on the sides the offset decides. */
  lemma SplitTopGeometry(top: Box, prev: Box)
    requires top.direction.Along? && SplitTop(top, prev).Hit?
    ensures
      var r := SplitTop(top, prev);
      var a := top.direction.axis;
      var d := Delta(top, prev);
      var t := top.foot;
      var k := r.kept.foot;
      var o := r.piece;
      // kept block and fragment together make up the top layer along the slide axis
      && k.Extent(a) == Overlap(top, prev)
      && o.Extent(a) == Abs(d)
      && k.Extent(a) + o.Extent(a) == t.Extent(a)
      // across the slide axis both keep the top's extent and position
      && k.Extent(Other(a)) == t.Extent(Other(a)) && o.Extent(Other(a)) == t.Extent(Other(a))
      && k.Coord(Other(a)) == t.Coord(Other(a)) && o.Coord(Other(a)) == t.Coord(Other(a))
      // the fragment is on the side the top overshot, its outer edge the top's outer edge
      && (d > 0.0 ==> k.Lo(a) == t.Lo(a) && o.Lo(a) == k.Hi(a) && o.Hi(a) == t.Hi(a))
      && (d < 0.0 ==> k.Hi(a) == t.Hi(a) && o.Hi(a) == k.Lo(a) && o.Lo(a) == t.Lo(a))
      // a perfect hit keeps the whole layer and drops an empty fragment at its centre
      && (d == 0.0 ==> k == t && o.Extent(a) == 0.0 && o.Coord(a) == t.Coord(a))
      // over a layer of the same size the kept block is exactly the overlap of the two
      && (prev.foot.Extent(a) == t.Extent(a) ==>
            k.Lo(a) == Max(t.Lo(a), prev.foot.Lo(a)) && k.Hi(a) == Min(t.Hi(a), prev.foot.Hi(a)))
  {
  }

  /** Sign of the perpendicular start offset of the layer added on top of a stack of n layers. */
  function OffsetSign(n: nat): (s: real)
    ensures s == 1.0 || s == -1.0
    ensures s == -1.0 <==> (n + 1) % 4 < 2
  {
    if (n + 1) % 4 < 2 then -1.0 else 1.0
  }

  /** The layer placed above a kept block that was cut along axis a, when the stack held n
      layers: same extents, same position along a, and the configured offset along the other
      axis, which is the new layer's slide axis. */
  function NextFootprint(kept: Footprint, a: Axis, offset: real, n: nat): (f: Footprint)
    ensures f.Coord(a) == kept.Coord(a)
    ensures f.Coord(Other(a)) == Scale(offset, OffsetSign(n))
    ensures f.width == kept.width && f.depth == kept.depth
  {
    var sign := OffsetSign(n);
    Footprint(
      if a == X then kept.x else Scale(offset, sign),
      if a == Z then kept.z else Scale(offset, sign),
      kept.width,
      kept.depth)
  }

  /** The start offset has the sign the new layer will slide with, so its start coordinate times
      its direction of travel is the configured offset: with a negative offset every new layer
      starts on the far side and slides towards the tower. */
  lemma NextLayerStartsAgainstItsSlide(kept: Footprint, a: Axis, offset: real, n: nat)
    ensures OffsetSign(n) == SlideSign(n + 1)
    ensures NextFootprint(kept, a, offset, n).Coord(Other(a)) * SlideSign(n + 1) == offset
  {
    ScaleIsProduct(offset, OffsetSign(n));
  }

  /** A top layer of size 5 offset by 3 keeps 2 and drops 3. */
  lemma CutExample(top: Box, prev: Box)
    requires top.direction == Along(X) && top.foot.width == 5.0
    requires top.foot.x == 3.0 && prev.foot.x == 0.0
    ensures SplitTop(top, prev).Hit?
    ensures SplitTop(top, prev).kept.foot.width == 2.0 && SplitTop(top, prev).piece.width == 3.0
    ensures SplitTop(top, prev).kept.foot.x == 1.5 && SplitTop(top, prev).piece.x == 4.0
  {
  }

  /** A top layer of size 5 offset by 6 misses. */
  lemma MissExample(top: Box, prev: Box)
    requires top.direction == Along(Z) && top.foot.depth == 5.0
    requires top.foot.z == -6.0 && prev.foot.z == 0.0
    ensures SplitTop(top, prev).Miss?
  {
  }
}
