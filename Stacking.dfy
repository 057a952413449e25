/** The shape of the tower and the order of the physics world's ids: the invariants a game
    session keeps, and the lemmas that show each step of the game preserves them. */
module Stacking {
  import opened Blocks
  import opened Physics

  /** The axis the layer at a level slides along: x on odd levels, z on even ones. */
  function SlideAxis(level: nat): (a: Axis)
    ensures a == X <==> level % 2 == 1
  {
    if level % 2 == 1 then X else Z
  }

  /** Each layer slides across the one below it. */
  lemma {:induction false} SlideAxisAlternates(level: nat)
    ensures SlideAxis(level + 1) == Other(SlideAxis(level))
  {
    if level % 2 == 1 {
      assert (level + 1) % 2 == 0;
    } else {
      assert (level + 1) % 2 == 1;
    }
  }

  /** Height of the layers at a level of a tower of layers of height h, stacked one on
      another from the ground. */
  function Level(h: real, level: nat): real
    decreases level
  {
    if level == 0 then 0.0 else Level(h, level - 1) + h
  }

  /** The stacked height is the level times the layer height, as the source computes it. */
  lemma {:induction false} LevelIsProduct(h: real, level: nat)
    ensures Level(h, level) == h * level as real
    decreases level
  {
    if level > 0 {
      var below: nat := level - 1;
      LevelIsProduct(h, below);
      assert level as real == below as real + 1.0;
      assert h * level as real == h * below as real + h;
    }
  }

  /** The two base layers laid by a reset: the bottom one at the origin without a direction and
      the first moving one at x = -10 sliding along x (this -10 does not follow the configured
      offset), both of the original size. */
  function BaseLayers(size: real, boxHeight: real, firstBody: nat): (s: seq<Box>)
    ensures |s| == 2
  {
    [Box(Footprint(0.0, 0.0, size, size), 0.0, NoDirection, firstBody),
     Box(Footprint(-10.0, 0.0, size, size), boxHeight, Along(X), firstBody + 1)]
  }

  /** Each layer sits one height h above the previous, the bottom one at 0. */
  ghost predicate Levels(s: seq<Box>, h: real)
  {
    forall i :: 0 <= i < |s| ==> s[i].y == Level(h, i)
  }

  /** The bottom layer is still and the others slide along alternate axes. */
  ghost predicate Alternating(s: seq<Box>)
  {
    |s| >= 1 && s[0].direction == NoDirection && forall i :: 1 <= i < |s| ==> s[i].direction == Along(SlideAxis(i))
  }

  /** A box is no wider and no deeper than another. */
  predicate Fits(upper: Box, lower: Box)
  {
    upper.foot.width <= lower.foot.width && upper.foot.depth <= lower.foot.depth
  }

  /** No layer is wider or deeper than the one below it. */
  ghost predicate Narrowing(s: seq<Box>)
    decreases |s|
  {
    |s| <= 1 || (Fits(s[1], s[0]) && Narrowing(s[1..]))
  }

  /** Replacing the top of a narrowing stack by a box that fits on the layer below keeps it
      narrowing. */
  lemma {:induction false} NarrowingReplaceTop(s: seq<Box>, b: Box)
    requires |s| >= 2 && Narrowing(s) && Fits(b, s[|s| - 2])
    ensures Narrowing(s[|s| - 1 := b])
    decreases |s|
  {
    var t := s[|s| - 1 := b];
    if |s| > 2 {
      assert t[1..] == s[1..][|s| - 2 := b];
      NarrowingReplaceTop(s[1..], b);
    }
  }

  /** Putting a box that fits on the top of a narrowing stack keeps it narrowing. */
  lemma {:induction false} NarrowingAppend(s: seq<Box>, b: Box)
    requires |s| >= 1 && Narrowing(s) && Fits(b, s[|s| - 1])
    ensures Narrowing(s + [b])
    decreases |s|
  {
    if |s| > 1 {
      assert (s + [b])[1..] == s[1..] + [b];
      NarrowingAppend(s[1..], b);
    }
  }

  /** The shape of a tower of layers of height h: at least the two base layers, levelled,
      alternating and narrowing, with the moving top exactly as wide and deep as the layer
      below it. */
  ghost predicate Tower(s: seq<Box>, h: real)
  {
    |s| >= 2 && Levels(s, h) && Alternating(s) && Narrowing(s) &&
    s[|s| - 1].foot.width == s[|s| - 2].foot.width &&
    s[|s| - 1].foot.depth == s[|s| - 2].foot.depth
  }

  lemma BaseLayersFormTower(size: real, h: real, firstBody: nat)
    ensures Tower(BaseLayers(size, h, firstBody), h)
  {
    assert Level(h, 1) == h;
  }

  /** Moving the top layer without changing its size keeps the tower's shape. */
  lemma {:induction false} ReplaceTopKeepsTower(s: seq<Box>, h: real, b: Box)
    requires Tower(s, h)
    requires b.y == s[|s| - 1].y && b.direction == s[|s| - 1].direction
    requires b.foot.width == s[|s| - 1].foot.width && b.foot.depth == s[|s| - 1].foot.depth
    ensures Tower(s[|s| - 1 := b], h)
  {
    var t := s[|s| - 1 := b];
    assert forall i :: 0 <= i < |s| - 1 ==> t[i] == s[i];
    assert Levels(t, h);
    assert Alternating(t);
    NarrowingReplaceTop(s, b);
  }

  /** Cutting the top layer down and adding a layer of the cut size above it, sliding along the
      next axis, keeps the tower's shape. */
  lemma HitKeepsTower(s: seq<Box>, h: real, kept: Box, next: Box)
    requires Tower(s, h)
    requires kept.y == s[|s| - 1].y && kept.direction == s[|s| - 1].direction
    requires kept.foot.width <= s[|s| - 1].foot.width && kept.foot.depth <= s[|s| - 1].foot.depth
    requires next.y == Level(h, |s|) && next.direction == Along(SlideAxis(|s|))
    requires next.foot.width == kept.foot.width && next.foot.depth == kept.foot.depth
    ensures Tower(s[..|s| - 1] + [kept, next], h)
  {
    HitKeepsLevels(s, h, kept, next);
    HitKeepsAlternating(s, kept, next);
    HitKeepsNarrowing(s, kept, next);
  }

  lemma {:induction false} HitKeepsLevels(s: seq<Box>, h: real, kept: Box, next: Box)
    requires |s| >= 2 && Levels(s, h)
    requires kept.y == s[|s| - 1].y && next.y == Level(h, |s|)
    ensures Levels(s[..|s| - 1] + [kept, next], h)
  {
    var n := |s|;
    var t := s[..n - 1] + [kept, next];
    assert forall i :: 0 <= i < n - 1 ==> t[i] == s[i];
    assert t[n - 1] == kept && t[n] == next;
  }

  lemma {:induction false} HitKeepsAlternating(s: seq<Box>, kept: Box, next: Box)
    requires |s| >= 2 && Alternating(s)
    requires kept.direction == s[|s| - 1].direction && next.direction == Along(SlideAxis(|s|))
    ensures Alternating(s[..|s| - 1] + [kept, next])
  {
    var n := |s|;
    var t := s[..n - 1] + [kept, next];
    assert forall i :: 0 <= i < n - 1 ==> t[i] == s[i];
    assert t[n - 1] == kept && t[n] == next;
  }

  lemma {:induction false} HitKeepsNarrowing(s: seq<Box>, kept: Box, next: Box)
    requires |s| >= 2 && Narrowing(s)
    requires Fits(kept, s[|s| - 2])
    requires next.foot.width == kept.foot.width && next.foot.depth == kept.foot.depth
    ensures Narrowing(s[..|s| - 1] + [kept, next])
  {
    var n := |s|;
    NarrowingReplaceTop(s, kept);
    NarrowingAppend(s[n - 1 := kept], next);
    assert s[..n - 1] + [kept, next] == s[n - 1 := kept] + [next];
  }

  /** The bodies of a world were created in increasing order from ids below `next`. */
  ghost predicate WorldIds(w: seq<Body>, next: nat)
  {
    IdsIncreasing(w) && forall i :: 0 <= i < |w| ==> w[i].id < next
  }

  /** Adding bodies with the next ids, in order, keeps the world's ids in order. */
  lemma {:induction false} AppendKeepsIds(w: seq<Body>, next: nat, bs: seq<Body>)
    requires WorldIds(w, next)
    requires forall i :: 0 <= i < |bs| ==> bs[i].id == next + i
    ensures WorldIds(w + bs, next + |bs|)
  {
    var t := w + bs;
    assert forall i :: 0 <= i < |w| ==> t[i] == w[i];
    assert forall i :: |w| <= i < |t| ==> t[i] == bs[i - |w|];
  }

  /** Removing a body keeps the world's ids in order. */
  lemma RemoveKeepsIds(w: seq<Body>, next: nat, id: nat)
    requires WorldIds(w, next)
    ensures WorldIds(RemoveFirst(w, id), next)
    ensures NoBody(RemoveFirst(w, id), id)
  {
    RemoveFirstKeepsOrder(w, id);
    RemoveFirstBounds(w, id);
    RemoveFirstRemoves(w, id);
    if w != [] {
      assert w[|w| - 1].id < next;
    }
  }

  /** Reshaping a body keeps the world's ids in order. */
  lemma {:induction false} ReshapeKeepsIds(w: seq<Body>, next: nat, id: nat, halfWidth: real, halfDepth: real)
    requires WorldIds(w, next)
    ensures WorldIds(Reshape(w, id, halfWidth, halfDepth), next)
  {
    var r := Reshape(w, id, halfWidth, halfDepth);
    assert forall i :: 0 <= i < |w| ==> r[i].id == w[i].id;
  }

  /** A physics tick keeps the world's ids in order. */
  lemma SweepKeepsIds(w: seq<Body>, next: nat, timePassed: real)
    requires WorldIds(w, next)
    ensures WorldIds(Sweep(w, timePassed), next)
  {
    SweepKeepsOrder(w, timePassed);
    SweepIdsWithin(w, timePassed, 0, next - 1);
  }
}
