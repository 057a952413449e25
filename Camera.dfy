/** Camera framing and fog as functions of the tower's height (its number of layers). */
module Camera {

  /** Orbit angle change per tick, in degrees. */
  const ORBIT_SPEED: real := -0.05
  /** Camera height above the tower's share of it. */
  const ORBIT_HEIGHT: real := 10.0
  const START_ORBIT_ANGLE: real := 45.0
  /** Camera height and look-at height right after a reset. */
  const START_CAMERA_HEIGHT: real := 20.0
  const START_LOOK_AT_HEIGHT: real := 0.0

  const START_FOG_DENSITY: real := 0.016
  /** Fog density lost per tick once the tower is tall. */
  const FOG_FADE: real := 0.00006
  /** Layers above which the orbit speeds up and the fog fades. */
  const TALL: nat := 35

  /** Orbit angle step: the orbit turns twice as fast once the tower is taller than TALL. */
  function OrbitStep(n: nat): (d: real)
    ensures n <= TALL ==> d == ORBIT_SPEED
    ensures n > TALL ==> d == 2.0 * ORBIT_SPEED
  {
    ORBIT_SPEED + (if n > TALL then ORBIT_SPEED * 1.0 else 0.0)
  }

  /** Target height of the camera over a tower of n layers of the given height, as the source
      writes it. */
  function CameraHeight(n: nat, boxHeight: real): (h: real)
    // up to 34 layers the camera climbs half a layer per layer
    ensures n <= 34 ==> h == ORBIT_HEIGHT + 0.5 * n as real * boxHeight
    // from 35 to 45 layers an extra 0.4 per layer is more than undone by a pull-down of 1 per layer
    ensures 35 <= n <= 45 ==> h == ORBIT_HEIGHT + 0.5 * n as real * boxHeight + 35.0 - 0.6 * n as real
    // above 45 layers the pull-down stays at 10 and the extra 0.4 per layer remains
    ensures n >= 45 ==> h == ORBIT_HEIGHT + 0.5 * n as real * boxHeight + 0.4 * n as real - 10.0
  {
    var heightRatio := 0.5;
    ORBIT_HEIGHT + n as real * boxHeight * heightRatio + (if n > 34 then n as real else 0.0) * 0.4
    + (if n >= 35 then (if n < 45 then n as real - 35.0 else 45.0 - 35.0) * -1.0 else 0.0)
  }

  /** How much the camera target rises when one layer is added on top of n layers: it jumps by
      14 at the 35th layer and sinks slightly per layer until the 45th when layers are one unit
      high. */
  lemma CameraHeightSteps(n: nat, boxHeight: real)
    ensures n < 34 ==> CameraHeight(n + 1, boxHeight) - CameraHeight(n, boxHeight) == 0.5 * boxHeight
    ensures n == 34 ==> CameraHeight(n + 1, boxHeight) - CameraHeight(n, boxHeight) == 0.5 * boxHeight + 14.0
    ensures 35 <= n < 45 ==> CameraHeight(n + 1, boxHeight) - CameraHeight(n, boxHeight) == 0.5 * boxHeight - 0.6
    ensures n >= 45 ==> CameraHeight(n + 1, boxHeight) - CameraHeight(n, boxHeight) == 0.5 * boxHeight + 0.4
  {
    var m: nat := n + 1;
    assert m as real == n as real + 1.0;
    assert m as real * boxHeight == n as real * boxHeight + boxHeight;
  }

  /** One tick of the fog controller over a tower of n layers: above TALL layers a positive
      density drops by FOG_FADE and anything else is clamped to zero. */
  function FogStep(n: nat, density: real): (r: real)
    ensures n <= TALL ==> r == density
    ensures n > TALL && density > 0.0 ==> r == density - FOG_FADE
    ensures n > TALL && density <= 0.0 ==> r == 0.0
  {
    if n > TALL then
      var x := density;
      var limit := 0.0;
      if x > limit then x - FOG_FADE else limit
    else
      density
  }

  /** The density after k ticks over a tower of n layers. */
  function FogAfter(n: nat, density: real, k: nat): real
    decreases k
  {
    if k == 0 then density else FogAfter(n, FogStep(n, density), k - 1)
  }

  /** Fog never rises above where it started (or zero), and dips at most one step below zero. */
  lemma {:induction false} FogNeverRises(n: nat, density: real, k: nat)
    requires density > -FOG_FADE
    ensures -FOG_FADE < FogAfter(n, density, k) <= Max0(density)
    decreases k
  {
    if k > 0 {
      FogNeverRises(n, FogStep(n, density), k - 1);
    }
  }

  function Max0(r: real): real
  {
    if r < 0.0 then 0.0 else r
  }

  /** Over a tall tower, once k - 1 steps of FOG_FADE cover the starting density, the fog is gone. */
  lemma {:induction false} FogClears(n: nat, density: real, k: nat)
    requires n > TALL && k >= 1
    requires (k - 1) as real * FOG_FADE >= density
    ensures FogAfter(n, density, k) == 0.0
    decreases k
  {
    var j: nat := k - 1;
    if density <= 0.0 {
      FogStaysClear(n, j);
    } else {
      assert k as real == j as real + 1.0;
      assert j >= 1;
      var i: nat := j - 1;
      assert j as real == i as real + 1.0;
      FogClears(n, density - FOG_FADE, j);
    }
  }

  /** Cleared fog stays clear. */
  lemma {:induction false} FogStaysClear(n: nat, k: nat)
    requires n > TALL
    ensures FogAfter(n, 0.0, k) == 0.0
    decreases k
  {
    if k > 0 {
      FogStaysClear(n, k - 1);
    }
  }

  /** The starting fog is gone after 268 ticks over a tower taller than TALL layers. */
  lemma FogGoneExample(n: nat)
    requires n > TALL
    ensures FogAfter(n, START_FOG_DENSITY, 268) == 0.0
  {
    FogClears(n, START_FOG_DENSITY, 268);
  }
}
