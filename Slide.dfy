/** The per-tick movement of the top layer and the autopilot's stop rule. */
module Slide {
  import opened Blocks

  /** A moving layer that passes this coordinate has missed the tower. */
  const BOUND: real := 11.0

  /** Direction of travel of the top layer of a stack of n layers: two levels one way,
      two levels the other. */
  function SlideSign(n: nat): (s: real)
    ensures s == 1.0 || s == -1.0
    ensures s == -1.0 <==> n % 4 < 2
  {
    if n % 4 < 2 then -1.0 else 1.0
  }

  /** The direction of travel repeats every four levels and flips every two. */
  lemma SlideSignCycle(n: nat)
    ensures SlideSign(n + 4) == SlideSign(n)
    ensures SlideSign(n + 2) == -SlideSign(n)
  {
  }

  /** Whether the top layer moves this tick. Without autopilot it moves until the game ends;
      under autopilot it moves until it reaches the layer below offset by the precision. The
      grouping follows the source's operator precedence. */
  function BoxShouldMove(ended: bool, autopilot: bool, sign: real, pos: real, prevPos: real, precision: real): (move: bool)
    ensures ended ==> !move
    ensures !ended && !autopilot ==> move
    ensures !ended && autopilot ==>
      (move <==> (sign > 0.0 && pos < prevPos + precision) || (sign < 0.0 && pos > prevPos - precision))
  {
    !ended &&
    (!autopilot || (autopilot && (sign > 0.0 && pos < prevPos + precision)) || (sign < 0.0 && pos > prevPos - precision))
  }

  /** A layer that has travelled past the far side of the tower misses. The test is one-sided:
      only the bound ahead of the layer counts, so a layer that starts beyond the bound behind
      it (an offset past the bound) does not miss. */
  function OutOfBounds(sign: real, pos: real): (out: bool)
    ensures sign > 0.0 ==> (out <==> pos > BOUND)
    ensures sign < 0.0 ==> (out <==> pos < -BOUND)
    ensures sign == 0.0 ==> !out
    ensures -BOUND <= pos <= BOUND ==> !out
  {
    (sign > 0.0 && pos > BOUND) || (sign < 0.0 && pos < -BOUND)
  }

  /** The top layer after one tick's travel along its slide axis. */
  function Moved(b: Box, step: real): (r: Box)
    requires b.direction.Along?
    ensures var a := b.direction.axis;
      r.foot.Coord(a) == b.foot.Coord(a) + step &&
      r.foot.Coord(Other(a)) == b.foot.Coord(Other(a)) &&
      r.foot.width == b.foot.width && r.foot.depth == b.foot.depth &&
      r.y == b.y && r.direction == b.direction && r.body == b.body
  {
    var a := b.direction.axis;
    b.(foot := b.foot.(x := if a == X then b.foot.x + step else b.foot.x,
                       z := if a == Z then b.foot.z + step else b.foot.z))
  }

  /** Under autopilot a layer that moved on the previous tick and stops now is offset from the
      layer below by the precision plus less than one tick's travel; so when the precision and
      one tick's travel fit inside the layer, the commit that follows always overlaps. */
  lemma AutopilotStopsWithinOneStep(sign: real, before: real, step: real, prevPos: real, precision: real, size: real)
    requires sign == 1.0 || sign == -1.0
    requires step >= 0.0
    requires BoxShouldMove(false, true, sign, before, prevPos, precision)
    requires !BoxShouldMove(false, true, sign, before + Scale(step, sign), prevPos, precision)
    ensures sign > 0.0 ==> precision <= before + Scale(step, sign) - prevPos < precision + step
    ensures sign < 0.0 ==> -precision - step < before + Scale(step, sign) - prevPos <= -precision
    ensures -size < precision && precision + step <= size ==> size - Abs(before + Scale(step, sign) - prevPos) > 0.0
  {
  }
}
