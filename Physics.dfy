/** The physics world as the game sees it: which bodies exist, their mass and shape, and how
    long they have left. Integration (gravity, collisions, positions) belongs to the engine. */
module Physics {

  datatype Option<T> = None | Some(value: T)

  /** A body's lifetime on first sight, in milliseconds. */
  const INITIAL_LIFETIME: real := 10000.0

  /** Mass of a full-size falling box. */
  const FALLING_MASS: real := 5.0

  type NonZero = r: real | r != 0.0 witness 1.0

  /** A body in the world: its id, mass, the half-extents of its box shape and its lifetime,
      unset until the first physics tick that sees it. */
  datatype Body = Body(id: nat, mass: real, halfWidth: real, halfHeight: real, halfDepth: real, lifetime: Option<real>)

  /** Mass rule of generateBox: static boxes weigh nothing, falling ones weigh in proportion
      to their footprint relative to the original box. */
  function Mass(falls: bool, width: real, depth: real, originalBoxSize: NonZero): (m: real)
    ensures !falls ==> m == 0.0
    ensures falls && width == originalBoxSize && depth == originalBoxSize ==> m == FALLING_MASS
    ensures falls && width > 0.0 && depth > 0.0 ==> m > 0.0
  {
    assert width == originalBoxSize ==> width / originalBoxSize == 1.0;
    assert depth == originalBoxSize ==> depth / originalBoxSize == 1.0;
    (if falls then FALLING_MASS else 0.0) * (width / originalBoxSize) * (depth / originalBoxSize)
  }

  /** Cutting a falling box in two along one axis splits its mass between the pieces. */
  lemma {:induction false} MassSplits(w1: real, w2: real, depth: real, originalBoxSize: NonZero)
    ensures Mass(true, w1, depth, originalBoxSize) + Mass(true, w2, depth, originalBoxSize)
         == Mass(true, w1 + w2, depth, originalBoxSize)
  {
    var s := originalBoxSize;
    calc {
      Mass(true, w1, depth, s) + Mass(true, w2, depth, s);
      FALLING_MASS * (w1 / s) * (depth / s) + FALLING_MASS * (w2 / s) * (depth / s);
      { assert w1 / s + w2 / s == (w1 + w2) / s; }
      FALLING_MASS * ((w1 + w2) / s) * (depth / s);
    }
  }

  /** The body generateBox creates for a box of the given size. */
  function NewBody(id: nat, width: real, height: real, depth: real, falls: bool, originalBoxSize: NonZero): (b: Body)
    ensures b.id == id && b.lifetime == None
    ensures b.mass == Mass(falls, width, depth, originalBoxSize)
    ensures 2.0 * b.halfWidth == width && 2.0 * b.halfHeight == height && 2.0 * b.halfDepth == depth
  {
    Body(id, Mass(falls, width, depth, originalBoxSize), width / 2.0, height / 2.0, depth / 2.0, None)
  }

  /** Bodies are kept in the order they were added, and ids are handed out in increasing order. */
  predicate IdsIncreasing(w: seq<Body>)
  {
    forall i, j :: 0 <= i < j < |w| ==> w[i].id < w[j].id
  }

  /** No body in the world has the id. */
  predicate NoBody(w: seq<Body>, id: nat)
  {
    forall i :: 0 <= i < |w| ==> w[i].id != id
  }

  /** world.remove: the first body with the id leaves the world; absent ids change nothing. */
  function RemoveFirst(w: seq<Body>, id: nat): (r: seq<Body>)
    ensures NoBody(w, id) ==> r == w
    ensures !NoBody(w, id) ==> |r| == |w| - 1
  {
    if w == [] then []
    else if w[0].id == id then w[1..]
    else [w[0]] + RemoveFirst(w[1..], id)
  }

  /** Removal leaves the ids within those of the world. */
  lemma {:induction false} RemoveFirstBounds(w: seq<Body>, id: nat)
    requires IdsIncreasing(w)
    ensures forall i :: 0 <= i < |RemoveFirst(w, id)| ==> w[0].id <= RemoveFirst(w, id)[i].id <= w[|w| - 1].id
  {
    if w != [] && w[0].id != id && |w| > 1 {
      var u := w[1..];
      assert IdsIncreasing(u);
      RemoveFirstBounds(u, id);
      assert u[0] == w[1] && u[|u| - 1] == w[|w| - 1];
    }
  }

  /** A body put in front of bodies with larger ids, in order, keeps the ids in order. */
  lemma ConsKeepsOrder(x: Body, r: seq<Body>)
    requires IdsIncreasing(r)
    requires forall i :: 0 <= i < |r| ==> x.id < r[i].id
    ensures IdsIncreasing([x] + r)
  {
    var t := [x] + r;
    forall i, j | 0 <= i < j < |t|
      ensures t[i].id < t[j].id
    {
      assert t[j] == r[j - 1];
      if i > 0 {
        assert t[i] == r[i - 1];
      }
    }
  }

  /** The bodies after one in a world in order have larger ids, up to the last one's. */
  lemma TailAbove(w: seq<Body>, k: nat)
    requires IdsIncreasing(w) && 1 <= k < |w|
    ensures IdsIncreasing(w[k..])
    ensures forall j :: 0 <= j < |w[k..]| ==> w[k - 1].id + 1 <= w[k..][j].id <= w[|w| - 1].id
  {
    assert forall j :: 0 <= j < |w[k..]| ==> w[k..][j] == w[k + j];
  }

  /** With ids in increasing order, removal keeps the order. */
  lemma {:induction false} RemoveFirstKeepsOrder(w: seq<Body>, id: nat)
    requires IdsIncreasing(w)
    ensures IdsIncreasing(RemoveFirst(w, id))
  {
    if w != [] && w[0].id != id && |w| > 1 {
      TailAbove(w, 1);
      RemoveFirstKeepsOrder(w[1..], id);
      RemoveFirstBounds(w[1..], id);
      ConsKeepsOrder(w[0], RemoveFirst(w[1..], id));
    }
  }

  /** With ids in increasing order, no body with the id is left after its removal. */
  lemma {:induction false} RemoveFirstRemoves(w: seq<Body>, id: nat)
    requires IdsIncreasing(w)
    ensures NoBody(RemoveFirst(w, id), id)
  {
    if w != [] && w[0].id != id && |w| > 1 {
      var u := w[1..];
      assert IdsIncreasing(u);
      RemoveFirstRemoves(u, id);
    }
  }

  /** With unique ids, removing the body at index k splices index k out. */
  lemma {:induction false} RemoveFirstAt(w: seq<Body>, k: nat)
    requires IdsIncreasing(w) && k < |w|
    ensures RemoveFirst(w, w[k].id) == w[..k] + w[k + 1..]
  {
    if k > 0 {
      assert w[0].id < w[k].id;
      RemoveFirstAt(w[1..], k - 1);
      assert w[1..][k - 1] == w[k];
      assert [w[0]] + (w[1..][..k - 1] + w[1..][k..]) == w[..k] + w[k + 1..];
    }
  }

  /** Replacing the shape of the body with the given id (cutBox cannot rescale a shape). */
  function Reshape(w: seq<Body>, id: nat, halfWidth: real, halfDepth: real): (r: seq<Body>)
    ensures |r| == |w|
    ensures forall i :: 0 <= i < |w| ==>
      r[i] == if w[i].id == id then w[i].(halfWidth := halfWidth, halfDepth := halfDepth) else w[i]
  {
    if w == [] then []
    else [if w[0].id == id then w[0].(halfWidth := halfWidth, halfDepth := halfDepth) else w[0]]
         + Reshape(w[1..], id, halfWidth, halfDepth)
  }

  /** One tick of a body's lifetime: set on first sight, then reduced by the time passed. */
  function Aged(b: Body, timePassed: real): (r: Body)
    ensures r.lifetime.Some?
    ensures r.lifetime.value == (if b.lifetime.None? then INITIAL_LIFETIME else b.lifetime.value) - timePassed
    ensures r.id == b.id && r.mass == b.mass
    ensures r.halfWidth == b.halfWidth && r.halfHeight == b.halfHeight && r.halfDepth == b.halfDepth
  {
    var start := if b.lifetime.None? then INITIAL_LIFETIME else b.lifetime.value;
    b.(lifetime := Some(start - timePassed))
  }

  /** A body whose lifetime has gone strictly below zero. */
  predicate Expired(b: Body)
  {
    b.lifetime.Some? && b.lifetime.value < 0.0
  }

  /** A tick expires a body exactly when its time passed is longer than the lifetime the body
      had left, which is INITIAL_LIFETIME on its first tick. */
  lemma ExpiresInTick(b: Body, timePassed: real)
    ensures Expired(Aged(b, timePassed)) <==>
      timePassed > (if b.lifetime.None? then INITIAL_LIFETIME else b.lifetime.value)
    ensures b.lifetime.None? ==> (Expired(Aged(b, timePassed)) <==> timePassed > INITIAL_LIFETIME)
  {
  }

  /** The lifetime pass of one physics tick, as a forEach that removes from the array it walks:
      every visited body is aged and removed once expired, and the body right after a removed
      one shifts into the slot just visited, so it is skipped for this tick. */
  function Sweep(w: seq<Body>, timePassed: real): (r: seq<Body>)
    ensures |r| <= |w|
    decreases |w|
  {
    if w == [] then []
    else
      var b := Aged(w[0], timePassed);
      if Expired(b) then
        if |w| == 1 then [] else [w[1]] + Sweep(w[2..], timePassed)
      else
        [b] + Sweep(w[1..], timePassed)
  }

  /** Every body left after a tick is either one that was skipped, as it was, or one whose
      lifetime is not below zero. */
  lemma {:induction false} SweepLeavesLiveOrSkipped(w: seq<Body>, timePassed: real)
    ensures forall i :: 0 <= i < |Sweep(w, timePassed)| ==>
      Sweep(w, timePassed)[i] in w || !Expired(Sweep(w, timePassed)[i])
    decreases |w|
  {
    if w != [] {
      var b := Aged(w[0], timePassed);
      if Expired(b) {
        if |w| > 1 {
          SweepLeavesLiveOrSkipped(w[2..], timePassed);
          var r := Sweep(w, timePassed);
          assert r == [w[1]] + Sweep(w[2..], timePassed);
          forall i | 0 <= i < |r|
            ensures r[i] in w || !Expired(r[i])
          {
            if i > 0 {
              var x := Sweep(w[2..], timePassed)[i - 1];
              assert r[i] == x;
              if x in w[2..] {
                var j :| 0 <= j < |w[2..]| && w[2..][j] == x;
                assert w[j + 2] == x;
              }
            }
          }
        }
      } else {
        SweepLeavesLiveOrSkipped(w[1..], timePassed);
        var r := Sweep(w, timePassed);
        assert r == [b] + Sweep(w[1..], timePassed);
        forall i | 0 <= i < |r|
          ensures r[i] in w || !Expired(r[i])
        {
          if i > 0 {
            var x := Sweep(w[1..], timePassed)[i - 1];
            assert r[i] == x;
            if x in w[1..] {
              var j :| 0 <= j < |w[1..]| && w[1..][j] == x;
              assert w[j + 1] == x;
            }
          }
        }
      }
    }
  }

  /** A tick leaves only ids from the range the world's ids were in. */
  lemma {:induction false} SweepIdsWithin(w: seq<Body>, timePassed: real, lo: int, hi: int)
    requires forall j :: 0 <= j < |w| ==> lo <= w[j].id <= hi
    ensures forall i :: 0 <= i < |Sweep(w, timePassed)| ==> lo <= Sweep(w, timePassed)[i].id <= hi
    decreases |w|
  {
    if w != [] {
      var b := Aged(w[0], timePassed);
      if Expired(b) {
        if |w| > 1 {
          SweepIdsWithin(w[2..], timePassed, lo, hi);
          assert Sweep(w, timePassed) == [w[1]] + Sweep(w[2..], timePassed);
        }
      } else {
        SweepIdsWithin(w[1..], timePassed, lo, hi);
        assert Sweep(w, timePassed) == [b] + Sweep(w[1..], timePassed);
      }
    }
  }

  /** A tick keeps the ids in order. */
  lemma {:induction false} SweepKeepsOrder(w: seq<Body>, timePassed: real)
    requires IdsIncreasing(w)
    ensures IdsIncreasing(Sweep(w, timePassed))
    decreases |w|
  {
    if |w| >= 2 {
      var b := Aged(w[0], timePassed);
      if Expired(b) {
        if |w| > 2 {
          TailAbove(w, 2);
          SweepKeepsOrder(w[2..], timePassed);
          SweepIdsWithin(w[2..], timePassed, w[1].id + 1, w[|w| - 1].id);
        }
        ConsKeepsOrder(w[1], Sweep(w[2..], timePassed));
      } else {
        TailAbove(w, 1);
        SweepKeepsOrder(w[1..], timePassed);
        SweepIdsWithin(w[1..], timePassed, w[0].id + 1, w[|w| - 1].id);
        ConsKeepsOrder(b, Sweep(w[1..], timePassed));
      }
    }
  }

  /** Ageing a body where it stands keeps the world's ids in order. */
  lemma {:induction false} AgedInPlaceKeepsIds(w: seq<Body>, k: nat, timePassed: real)
    requires IdsIncreasing(w) && k < |w|
    ensures IdsIncreasing(w[k := Aged(w[k], timePassed)])
  {
    var r := w[k := Aged(w[k], timePassed)];
    assert forall i :: 0 <= i < |w| ==> r[i].id == w[i].id;
  }

  /** One visit of the lifetime walk, with `done` the bodies behind it and `rest` those ahead:
      how the tick of the whole world goes on past the visited body. */
  lemma SweepVisit(done: seq<Body>, rest: seq<Body>, timePassed: real)
    requires rest != []
    ensures !Expired(Aged(rest[0], timePassed)) ==>
      done + Sweep(rest, timePassed) == (done + [Aged(rest[0], timePassed)]) + Sweep(rest[1..], timePassed)
    ensures Expired(Aged(rest[0], timePassed)) && |rest| > 1 ==>
      done + Sweep(rest, timePassed) == (done + [rest[1]]) + Sweep(rest[2..], timePassed)
    ensures Expired(Aged(rest[0], timePassed)) && |rest| == 1 ==> done + Sweep(rest, timePassed) == done
  {
  }

  /** The world during the walk, with the visited body at index |done| aged where it stands or
      spliced out. */
  lemma VisitedInPlace(done: seq<Body>, rest: seq<Body>, b: Body)
    requires rest != []
    ensures (done + rest)[|done| := b] == (done + [b]) + rest[1..]
    ensures (done + rest)[..|done|] + (done + rest)[|done| + 1..] == done + rest[1..]
    ensures |rest| > 1 ==> done + rest[1..] == (done + [rest[1]]) + rest[2..]
  {
    assert (done + rest)[..|done|] == done;
    assert (done + rest)[|done| + 1..] == rest[1..];
    if |rest| > 1 {
      assert rest[1..] == [rest[1]] + rest[2..];
    }
  }

  /** When no body expires in a tick, every body stays and is aged exactly once. */
  lemma {:induction false} SweepAgesAll(w: seq<Body>, timePassed: real)
    requires forall i :: 0 <= i < |w| ==> !Expired(Aged(w[i], timePassed))
    ensures |Sweep(w, timePassed)| == |w|
    ensures forall i :: 0 <= i < |w| ==> Sweep(w, timePassed)[i] == Aged(w[i], timePassed)
  {
    if w != [] {
      assert !Expired(Aged(w[0], timePassed));
      SweepAgesAll(w[1..], timePassed);
      assert Sweep(w, timePassed) == [Aged(w[0], timePassed)] + Sweep(w[1..], timePassed);
    }
  }

  /** Two bodies that both run out in the same tick: only the first is removed, and the second
      stays in the world with its lifetime untouched. */
  lemma SweepSkipsTheNextBody(a: Body, b: Body, timePassed: real)
    requires Expired(Aged(a, timePassed)) && Expired(Aged(b, timePassed))
    ensures Sweep([a, b], timePassed) == [b]
  {
    assert [a, b][2..] == [];
  }

  /** The world after k physics ticks of equal length. */
  function Ticks(w: seq<Body>, timePassed: real, k: nat): seq<Body>
    decreases k
  {
    if k == 0 then w else Ticks(Sweep(w, timePassed), timePassed, k - 1)
  }

  /** A tick on a world of one body: the body is aged, or removed if that expires it. */
  lemma SweepOne(c: Body, timePassed: real)
    ensures Sweep([c], timePassed) == if Expired(Aged(c, timePassed)) then [] else [Aged(c, timePassed)]
  {
    assert [c][1..] == [];
  }

  /** Time passed over k ticks of equal length. */
  function Elapsed(k: nat, timePassed: real): (e: real)
    decreases k
  {
    if k == 0 then 0.0 else Elapsed(k - 1, timePassed) + timePassed
  }

  lemma {:induction false} ElapsedIsProduct(k: nat, timePassed: real)
    ensures Elapsed(k, timePassed) == k as real * timePassed
    decreases k
  {
    if k > 0 {
      var j: nat := k - 1;
      ElapsedIsProduct(j, timePassed);
      assert k as real == j as real + 1.0;
      assert k as real * timePassed == j as real * timePassed + timePassed;
    }
  }

  /** A body alone in the world counts down from INITIAL_LIFETIME by the time passed per tick
      and stays while its lifetime is not below zero. */
  lemma {:induction false} LoneBodyCountdown(b: Body, timePassed: real, k: nat)
    requires b.lifetime == None && timePassed >= 0.0
    requires k >= 1 && Elapsed(k, timePassed) <= INITIAL_LIFETIME
    ensures Ticks([b], timePassed, k) == [b.(lifetime := Some(INITIAL_LIFETIME - Elapsed(k, timePassed)))]
    decreases k
  {
    if k == 1 {
      SweepOne(b, timePassed);
      assert Ticks([b], timePassed, 1) == Ticks(Sweep([b], timePassed), timePassed, 0);
    } else {
      LoneBodyCountdown(b, timePassed, k - 1);
      TicksLast([b], timePassed, k - 1);
      SweepOne(b.(lifetime := Some(INITIAL_LIFETIME - Elapsed(k - 1, timePassed))), timePassed);
    }
  }

  /** The last of k + 1 ticks runs on the world after k ticks. */
  lemma {:induction false} TicksLast(w: seq<Body>, timePassed: real, k: nat)
    ensures Ticks(w, timePassed, k + 1) == Sweep(Ticks(w, timePassed, k), timePassed)
    decreases k
  {
    if k > 0 {
      TicksLast(Sweep(w, timePassed), timePassed, k - 1);
    }
  }

  /** The tick that takes the lifetime below zero removes the lone body. */
  lemma LoneBodyExpires(b: Body, timePassed: real, k: nat)
    requires b.lifetime == None && timePassed >= 0.0
    requires k >= 1 && Elapsed(k, timePassed) <= INITIAL_LIFETIME < Elapsed(k + 1, timePassed)
    ensures Ticks([b], timePassed, k + 1) == []
  {
    LoneBodyCountdown(b, timePassed, k);
    TicksLast([b], timePassed, k);
    SweepOne(b.(lifetime := Some(INITIAL_LIFETIME - Elapsed(k, timePassed))), timePassed);
  }

  /** Ticks of 600 ms: 400 ms are left after the 16th, and the 17th removes the body. */
  lemma LifetimeExample(b: Body)
    requires b.lifetime == None
    ensures Ticks([b], 600.0, 16) == [b.(lifetime := Some(400.0))]
    ensures Ticks([b], 600.0, 17) == []
  {
    ElapsedIsProduct(16, 600.0);
    ElapsedIsProduct(17, 600.0);
    LoneBodyCountdown(b, 600.0, 16);
    LoneBodyExpires(b, 600.0, 16);
  }
}
