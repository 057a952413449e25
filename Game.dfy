/** The game session: the tower, the falling fragments, the physics world's bodies, the game
    state and the camera and fog values, all held by one object. */
module Game {
  import opened Blocks
  import opened Physics
  import opened Cutting
  import opened Slide
  import opened Camera
  import opened Stacking

  /** What a step shows the player: nothing, a running score, or the final score. */
  datatype Report = Silent | Scored(score: int) | Ended(score: int)

  /** The part of a session the game's moves change: the tower, the falling fragments, the
      physics world's bodies, the next body id and whether the game has ended. */
  datatype Play = Play(stack: seq<Box>, overhangs: seq<Box>, world: seq<Body>, nextBody: nat, gameEnded: bool)

  /** What a move shows the player and the play state it leaves. */
  datatype Outcome = Outcome(report: Report, play: Play)

  /** A play state whose top layer is moving, so that a move can apply to it. */
  predicate Moving(p: Play)
  {
    |p.stack| >= 2 && p.stack[|p.stack| - 1].direction.Along?
  }

  /** Layers below the top never change, and the stack grows by at most one layer. */
  predicate KeepsLowerLayers(p: Play, q: Play)
  {
    |p.stack| >= 1 && |p.stack| <= |q.stack| <= |p.stack| + 1 &&
    q.stack[..|p.stack| - 1] == p.stack[..|p.stack| - 1]
  }

  /** Once the game has ended, the player sees nothing new and the tower and the fragments
      stay as they were. */
  predicate StaysEnded(p: Play, o: Outcome)
  {
    p.gameEnded ==> o.report == Silent && o.play.stack == p.stack && o.play.overhangs == p.overhangs && o.play.gameEnded
  }

  /** JavaScript's `setting || fallback` on a numeric setting, with 0 standing for unset. */
  function OrElse(setting: real, fallback: real): (r: real)
    ensures setting != 0.0 ==> r == setting
    ensures setting == 0.0 ==> r == fallback
  {
    if setting != 0.0 then setting else fallback
  }

  class Session {
    // Settings, fixed for the session.
    const boxHeight: real
    const originalBoxSize: NonZero
    const originalBoxOffset: real
    const speed: real
    const autopilotError: real
    const autopilot: bool
    const fogEnabled: bool

    /** Layers that stay, bottom first; the last one is the one moving. */
    var stack: seq<Box>
    /** Fragments released to fall, oldest first. */
    var overhangs: seq<Box>
    /** Bodies in the physics world, in the order they were added. */
    var world: seq<Body>
    /** Id of the next body to be created. */
    var nextBody: nat
    var gameEnded: bool
    var robotPrecision: real
    /** Timestamp of the previous frame, 0 before the first frame of a game. */
    var lastTime: real
    var orbitAngle: real
    /** Target camera height and look-at height computed by the last camera update. */
    var cameraHeight: real
    var lookAtHeight: real
    var fogDensity: real

    /** The session invariant. */
    ghost predicate Valid()
      reads this`stack, this`world, this`nextBody, this`robotPrecision
    {
      Tower(stack, boxHeight) && WorldIds(world, nextBody) && robotPrecision == OrElse(autopilotError, 0.0)
    }

    /** The session's current play state. */
    function Now(): Play
      reads this`stack, this`overhangs, this`world, this`nextBody, this`gameEnded
    {
      Play(stack, overhangs, world, nextBody, gameEnded)
    }

    /** generateBox's body for a box of the given footprint: a box shape of half the
        footprint's extents and half the layer height, with the mass rule's mass and no
        lifetime yet. */
    function GenerateBody(id: nat, f: Footprint, falls: bool): (b: Body)
      ensures b.id == id && b.lifetime == None
      ensures 2.0 * b.halfWidth == f.width && 2.0 * b.halfHeight == boxHeight && 2.0 * b.halfDepth == f.depth
      ensures b.mass == Mass(falls, f.width, f.depth, originalBoxSize)
      ensures !falls ==> b.mass == 0.0
    {
      NewBody(id, f.width, boxHeight, f.depth, falls, originalBoxSize)
    }

    /** init followed by Initialize and a first camera update. Settings left unset (0) take
        their defaults: box height 1, box size 5, offset -10, speed 0.008, autopilot error 0. */
    constructor (towerHeight: real, towerSize: real, towerOffset: real, towerSpeed: real,
                 autopilotSetting: real, enableAutopilot: bool, enableFog: bool, random: real)
      ensures Valid()
      ensures boxHeight == OrElse(towerHeight, 1.0) && originalBoxSize == OrElse(towerSize, 5.0)
      ensures originalBoxOffset == OrElse(towerOffset, -10.0) && speed == OrElse(towerSpeed, 0.008)
      ensures autopilotError == autopilotSetting && autopilot == enableAutopilot && fogEnabled == enableFog
      ensures stack == BaseLayers(originalBoxSize, boxHeight, 0) && overhangs == []
      ensures world == [GenerateBody(0, stack[0].foot, false), GenerateBody(1, stack[1].foot, false), FloorBody(2)]
      ensures nextBody == 3 && !gameEnded && lastTime == 0.0
      ensures orbitAngle == START_ORBIT_ANGLE + OrbitStep(2)
      ensures cameraHeight == CameraHeight(2, boxHeight) && lookAtHeight == boxHeight
      ensures fogDensity == if fogEnabled then START_FOG_DENSITY else 0.0
    {
      boxHeight := OrElse(towerHeight, 1.0);
      originalBoxSize := OrElse(towerSize, 5.0);
      originalBoxOffset := OrElse(towerOffset, -10.0);
      speed := OrElse(towerSpeed, 0.008);
      autopilotError := autopilotSetting;
      autopilot := enableAutopilot;
      fogEnabled := enableFog;
      gameEnded := false;
      world := [];
      nextBody := 0;
      new;
      Initialize(random);
      CameraOrbitController();
    }

    /** The static floor body Initialize adds after the base layers. */
    static function FloorBody(id: nat): (b: Body)
      ensures b.id == id && b.mass == 0.0 && b.lifetime == None
    {
      Body(id, 0.0, 100.0, 1.0, 100.0, None)
    }

    /** setRobotPrecision: the random draw is overwritten by the configured error, so the
        precision never depends on it. */
    method SetRobotPrecision(random: real)
      modifies this`robotPrecision
      ensures robotPrecision == OrElse(autopilotError, 0.0)
    {
      robotPrecision := random * 1.0 - 0.5;
      robotPrecision := OrElse(autopilotError, 0.0);
    }

    /** The camera part of Initialize (taken on every reset): the orbit starts again at its
        initial angle, the camera at its initial height, aimed at the ground. */
    method ResetCamera()
      modifies this`orbitAngle, this`cameraHeight, this`lookAtHeight
      ensures orbitAngle == START_ORBIT_ANGLE && cameraHeight == START_CAMERA_HEIGHT && lookAtHeight == START_LOOK_AT_HEIGHT
    {
      orbitAngle := START_ORBIT_ANGLE;
      cameraHeight := START_CAMERA_HEIGHT;
      lookAtHeight := START_LOOK_AT_HEIGHT;
    }

    /** Initialize: empty tower, base layers and floor added to the world, camera reset. */
    method Initialize(random: real)
      requires WorldIds(world, nextBody)
      modifies this`lastTime, this`stack, this`overhangs, this`robotPrecision, this`orbitAngle,
        this`cameraHeight, this`lookAtHeight, this`world, this`nextBody, this`fogDensity
      ensures Valid()
      ensures lastTime == 0.0 && overhangs == []
      ensures orbitAngle == START_ORBIT_ANGLE && cameraHeight == START_CAMERA_HEIGHT && lookAtHeight == START_LOOK_AT_HEIGHT
      ensures stack == BaseLayers(originalBoxSize, boxHeight, old(nextBody))
      ensures world == old(world) + [GenerateBody(old(nextBody), stack[0].foot, false),
                                     GenerateBody(old(nextBody) + 1, stack[1].foot, false),
                                     FloorBody(old(nextBody) + 2)]
      ensures nextBody == old(nextBody) + 3
      ensures fogDensity == if fogEnabled then START_FOG_DENSITY else 0.0
    {
      lastTime := 0.0;
      stack := [];
      overhangs := [];
      SetRobotPrecision(random);
      ResetCamera();
      fogDensity := if fogEnabled then START_FOG_DENSITY else 0.0;
      LayBase();
    }

    /** The bodies Initialize adds to an empty tower: the two base layers, then the floor. */
    method LayBase()
      requires stack == [] && WorldIds(world, nextBody)
      modifies this`stack, this`world, this`nextBody
      ensures stack == BaseLayers(originalBoxSize, boxHeight, old(nextBody)) && Tower(stack, boxHeight)
      ensures world == old(world) + [GenerateBody(old(nextBody), stack[0].foot, false),
                                     GenerateBody(old(nextBody) + 1, stack[1].foot, false),
                                     FloorBody(old(nextBody) + 2)]
      ensures nextBody == old(nextBody) + 3 && WorldIds(world, nextBody)
    {
      AddLayer(Footprint(0.0, 0.0, originalBoxSize, originalBoxSize), NoDirection);
      AddLayer(Footprint(-10.0, 0.0, originalBoxSize, originalBoxSize), Along(X));
      world := world + [FloorBody(nextBody)];
      nextBody := nextBody + 1;
      ghost var base := [GenerateBody(old(nextBody), stack[0].foot, false),
                         GenerateBody(old(nextBody) + 1, stack[1].foot, false),
                         FloorBody(old(nextBody) + 2)];
      assert world == old(world) + base;
      AppendKeepsIds(old(world), old(nextBody), base);
      assert Level(boxHeight, 1) == boxHeight;
      assert stack == BaseLayers(originalBoxSize, boxHeight, old(nextBody));
      BaseLayersFormTower(originalBoxSize, boxHeight, old(nextBody));
    }

    /** startGame: everything is cleared, the world emptied body by body, and the base layers
        laid again. The new state depends only on the settings and on the body counter. */
    method StartGame(random: real)
      modifies this
      ensures Valid()
      ensures !gameEnded && lastTime == 0.0 && overhangs == []
      ensures stack == BaseLayers(originalBoxSize, boxHeight, old(nextBody))
      ensures world == [GenerateBody(old(nextBody), stack[0].foot, false),
                        GenerateBody(old(nextBody) + 1, stack[1].foot, false),
                        FloorBody(old(nextBody) + 2)]
      ensures orbitAngle == START_ORBIT_ANGLE && cameraHeight == START_CAMERA_HEIGHT && lookAtHeight == START_LOOK_AT_HEIGHT
      ensures fogDensity == if fogEnabled then START_FOG_DENSITY else 0.0
      ensures nextBody == old(nextBody) + 3
    {
      gameEnded := false;
      lastTime := 0.0;
      stack := [];
      overhangs := [];
      while |world| > 0
        modifies this`world
        decreases |world|
      {
        world := RemoveFirst(world, world[0].id);
      }
      Initialize(random);
    }

    /** addLayer: a static layer one level above the current top. */
    method AddLayer(f: Footprint, direction: Direction)
      modifies this`stack, this`world, this`nextBody
      ensures stack == old(stack) + [Box(f, Level(boxHeight, |old(stack)|), direction, old(nextBody))]
      ensures world == old(world) + [GenerateBody(old(nextBody), f, false)]
      ensures nextBody == old(nextBody) + 1
    {
      var y := boxHeight * |stack| as real;
      LevelIsProduct(boxHeight, |stack|);
      assert y == Level(boxHeight, |stack|);
      world := world + [GenerateBody(nextBody, f, false)];
      stack := stack + [Box(f, y, direction, nextBody)];
      nextBody := nextBody + 1;
    }

    /** addOverhang: a falling fragment at the level of the current top. */
    method AddOverhang(f: Footprint)
      requires |stack| >= 1
      modifies this`overhangs, this`world, this`nextBody
      ensures overhangs == old(overhangs) + [Box(f, Level(boxHeight, |stack| - 1), NoDirection, old(nextBody))]
      ensures world == old(world) + [GenerateBody(old(nextBody), f, true)]
      ensures nextBody == old(nextBody) + 1
    {
      var y := boxHeight * (|stack| - 1) as real;
      LevelIsProduct(boxHeight, |stack| - 1);
      assert y == Level(boxHeight, |stack| - 1);
      world := world + [GenerateBody(nextBody, f, true)];
      overhangs := overhangs + [Box(f, y, NoDirection, nextBody)];
      nextBody := nextBody + 1;
    }

    /** The miss path on play state p with the given top layer: the top becomes a falling
        fragment of the same place and size, its own body leaves the world, the game ends, and
        the score is the number of layers placed on the base. */
    function MissPath(p: Play, top: Box): Outcome
    {
      Outcome(Ended(|p.stack| - 2),
        Play(p.stack, p.overhangs + [Box(top.foot, top.y, NoDirection, p.nextBody)],
             RemoveFirst(p.world + [GenerateBody(p.nextBody, top.foot, true)], top.body),
             p.nextBody + 1, true))
    }

    /** missedTheSpot. */
    method MissedTheSpot() returns (score: int)
      requires Valid()
      modifies this`overhangs, this`world, this`nextBody, this`gameEnded
      ensures Valid()
      ensures Outcome(Ended(score), Now()) == MissPath(old(Now()), stack[|stack| - 1])
      ensures NoBody(world, stack[|stack| - 1].body)
    {
      var top := stack[|stack| - 1];
      AddOverhang(top.foot);
      AppendKeepsIds(old(world), old(nextBody), [GenerateBody(old(nextBody), top.foot, true)]);
      ghost var w1 := world;
      world := RemoveFirst(world, top.body);
      RemoveKeepsIds(w1, nextBody, top.body);
      gameEnded := true;
      score := |stack| - 2;
    }

    /** splitBlockAndAddNextOneIfOverlaps on play state p. Once the game has ended nothing
        happens. On a miss, the miss path runs. On a hit, the hit path runs and the score shown
        is the number of layers placed on the base. */
    function Split(p: Play): Outcome
      requires Moving(p)
    {
      var n := |p.stack|;
      if p.gameEnded then Outcome(Silent, p)
      else
        match SplitTop(p.stack[n - 1], p.stack[n - 2])
        case Miss => MissPath(p, p.stack[n - 1])
        case Hit(kept, piece) => Outcome(Scored(n - 1), HitPath(p, kept, piece))
    }

    /** splitBlockAndAddNextOneIfOverlaps. */
    method SplitBlockAndAddNextOneIfOverlaps() returns (report: Report)
      requires Valid()
      modifies this`stack, this`overhangs, this`world, this`nextBody, this`gameEnded
      ensures Valid()
      ensures Outcome(report, Now()) == Split(old(Now()))
    {
      if gameEnded {
        return Silent;
      }
      var n := |stack|;
      var top := stack[n - 1];
      var prev := stack[n - 2];
      var a := top.direction.axis;
      var delta := Delta(top, prev);
      var overlap := Overlap(top, prev);
      if overlap > 0.0 {
        var kept := CutBox(top, overlap, delta);
        var piece := OverhangPiece(kept.foot, a, overlap, delta);
        assert SplitTop(top, prev) == Hit(kept, piece);
        PlaceCut(kept, piece);
        report := Scored(n - 1);
      } else {
        var score := MissedTheSpot();
        report := Ended(score);
      }
    }

    /** The hit path on play state p once the cut is known: the top layer is replaced by the
        kept block (its body reshaped to match), the fragment falls from the top's level, and
        the next layer is added above the kept block, offset along the other axis, with the two
        new bodies. */
    function HitPath(p: Play, kept: Box, piece: Footprint): Play
      requires |p.stack| >= 1 && kept.direction.Along?
    {
      var n := |p.stack|;
      var next := NextFootprint(kept.foot, kept.direction.axis, originalBoxOffset, n);
      Play(p.stack[..n - 1] + [kept, Box(next, Level(boxHeight, n), Along(Other(kept.direction.axis)), p.nextBody + 1)],
           p.overhangs + [Box(piece, kept.y, NoDirection, p.nextBody)],
           Reshape(p.world, kept.body, kept.foot.width / 2.0, kept.foot.depth / 2.0) +
             [GenerateBody(p.nextBody, piece, true), GenerateBody(p.nextBody + 1, next, false)],
           p.nextBody + 2, p.gameEnded)
    }

    /** The hit path. */
    method PlaceCut(kept: Box, piece: Footprint)
      requires Valid()
      requires var top := stack[|stack| - 1];
        top.direction.Along? && kept.y == top.y && kept.direction == top.direction && kept.body == top.body &&
        kept.foot.width <= top.foot.width && kept.foot.depth <= top.foot.depth
      modifies this`stack, this`overhangs, this`world, this`nextBody
      ensures Valid() && Now() == HitPath(old(Now()), kept, piece)
    {
      var n := |stack|;
      var a := kept.direction.axis;
      CutTop(kept);
      var next := NextFootprint(kept.foot, a, originalBoxOffset, n);
      AddPieceAndNext(piece, next, Along(Other(a)));
      assert kept.y == Level(boxHeight, n - 1);
      ghost var nextBox := Box(next, Level(boxHeight, n), Along(Other(a)), old(nextBody) + 1);
      assert stack == old(stack)[..n - 1] + [kept, nextBox];
      SlideAxisAlternates(n - 1);
      HitKeepsTower(old(stack), boxHeight, kept, nextBox);
    }

    /** The first half of the hit path: the top layer becomes the kept block and its body is
        reshaped to the kept size. */
    method CutTop(kept: Box)
      requires |stack| >= 1 && WorldIds(world, nextBody)
      modifies this`stack, this`world
      ensures stack == old(stack)[|old(stack)| - 1 := kept]
      ensures world == Reshape(old(world), kept.body, kept.foot.width / 2.0, kept.foot.depth / 2.0)
      ensures WorldIds(world, nextBody)
    {
      stack := stack[|stack| - 1 := kept];
      ReshapeKeepsIds(world, nextBody, kept.body, kept.foot.width / 2.0, kept.foot.depth / 2.0);
      world := Reshape(world, kept.body, kept.foot.width / 2.0, kept.foot.depth / 2.0);
    }

    /** The second half of the hit path: the fragment falls from the top's level and the next
        layer is added above the top, each with a new body. */
    method AddPieceAndNext(piece: Footprint, next: Footprint, direction: Direction)
      requires |stack| >= 1 && WorldIds(world, nextBody)
      modifies this`stack, this`overhangs, this`world, this`nextBody
      ensures stack == old(stack) + [Box(next, Level(boxHeight, |old(stack)|), direction, old(nextBody) + 1)]
      ensures overhangs == old(overhangs) + [Box(piece, Level(boxHeight, |old(stack)| - 1), NoDirection, old(nextBody))]
      ensures world == old(world) + [GenerateBody(old(nextBody), piece, true), GenerateBody(old(nextBody) + 1, next, false)]
      ensures nextBody == old(nextBody) + 2 && WorldIds(world, nextBody)
    {
      AddOverhang(piece);
      AddLayer(next, direction);
      ghost var added := [GenerateBody(old(nextBody), piece, true), GenerateBody(old(nextBody) + 1, next, false)];
      assert world == old(world) + added;
      AppendKeepsIds(old(world), old(nextBody), added);
    }

    /** Moving the top layer of play state p by the given step along its axis: the layer moves,
        and once it has passed the far bound on its side the miss path runs. */
    function SlidePath(p: Play, step: real): Outcome
      requires Moving(p)
    {
      var n := |p.stack|;
      var moved := Moved(p.stack[n - 1], step);
      var q := p.(stack := p.stack[..n - 1] + [moved]);
      if OutOfBounds(SlideSign(n), moved.foot.Coord(p.stack[n - 1].direction.axis)) then MissPath(q, moved)
      else Outcome(Silent, q)
    }

    /** The moving branch of the slide block: the top layer travels one step, and a layer past
        the far bound is a miss. */
    method SlideTop(step: real) returns (report: Report)
      requires Valid() && !gameEnded
      modifies this`stack, this`overhangs, this`world, this`nextBody, this`gameEnded
      ensures Valid()
      ensures Outcome(report, Now()) == SlidePath(old(Now()), step)
    {
      var n := |stack|;
      var top := stack[n - 1];
      var a := top.direction.axis;
      // the visual and the physical position move together; the model keeps one of them
      var moved := Moved(top, step);
      ReplaceTopKeepsTower(stack, boxHeight, moved);
      stack := stack[n - 1 := moved];
      assert stack == old(stack)[..n - 1] + [moved];
      if OutOfBounds(SlideSign(n), moved.foot.Coord(a)) {
        var score := MissedTheSpot();
        report := Ended(score);
      } else {
        report := Silent;
      }
    }

    /** The autopilot branch of the slide block: the top layer is committed and the precision is
        set again. */
    method CommitByAutopilot(random: real) returns (report: Report)
      requires Valid()
      modifies this`stack, this`overhangs, this`world, this`nextBody, this`gameEnded, this`robotPrecision
      ensures Valid()
      ensures Outcome(report, Now()) == Split(old(Now()))
    {
      report := SplitBlockAndAddNextOneIfOverlaps();
      label Committed:
      SetRobotPrecision(random);
      assert unchanged@Committed(this`stack, this`overhangs, this`world, this`nextBody, this`gameEnded);
    }

    /** The slide and autopilot block on play state p in a frame in which the top layer can
        travel the given distance, with the autopilot's precision at the start of the frame: the
        top layer moves while it should (and a move past the far bound is a miss); otherwise
        under autopilot it is committed; otherwise nothing changes. */
    function Advance(p: Play, precision: real, distance: real): Outcome
      requires Moving(p)
    {
      var n := |p.stack|;
      var a := p.stack[n - 1].direction.axis;
      var sign := SlideSign(n);
      if BoxShouldMove(p.gameEnded, autopilot, sign, p.stack[n - 1].foot.Coord(a), p.stack[n - 2].foot.Coord(a), precision) then
        SlidePath(p, Scale(distance, sign))
      else if autopilot then Split(p)
      else Outcome(Silent, p)
    }

    /** The slide and autopilot block of one frame in which the top layer can travel the given
        distance: the top layer moves while it should, and a move past the far bound is a miss;
        under autopilot a layer that stops is committed and the precision set again. */
    method AdvanceTopLayer(distance: real, random: real) returns (report: Report)
      requires Valid()
      modifies this`stack, this`overhangs, this`world, this`nextBody, this`gameEnded, this`robotPrecision
      ensures Valid()
      ensures Outcome(report, Now()) == Advance(old(Now()), old(robotPrecision), distance)
    {
      var n := |stack|;
      var top := stack[n - 1];
      var prev := stack[n - 2];
      var a := top.direction.axis;
      var sign := SlideSign(n);
      ghost var p := Now();
      if BoxShouldMove(gameEnded, autopilot, sign, top.foot.Coord(a), prev.foot.Coord(a), robotPrecision) {
        assert Advance(p, robotPrecision, distance) == SlidePath(p, Scale(distance, sign));
        report := SlideTop(Scale(distance, sign));
      } else if autopilot {
        assert Advance(p, robotPrecision, distance) == Split(p);
        report := CommitByAutopilot(random);
      } else {
        report := Silent;
      }
    }

    /** The callback of updatePhysics' lifetime walk on the body at index k: its lifetime is
        set on first sight and reduced by the time passed, and the body leaves the world once
        the lifetime is below zero. */
    method AgeBodyAt(k: nat, timePassed: real)
      requires k < |world| && IdsIncreasing(world)
      modifies this`world
      ensures IdsIncreasing(world)
      ensures var b := Aged(old(world)[k], timePassed);
        if Expired(b) then world == old(world)[..k] + old(world)[k + 1..] else world == old(world)[k := b]
    {
      var body := Aged(world[k], timePassed);
      AgedInPlaceKeepsIds(world, k, timePassed);
      world := world[k := body];
      if Expired(body) {
        RemoveFirstAt(world, k);
        RemoveFirstKeepsOrder(world, body.id);
        assert world[..k] == old(world)[..k] && world[k + 1..] == old(world)[k + 1..];
        world := RemoveFirst(world, body.id);
      }
    }

    /** The lifetime loop of updatePhysics: a forEach over the world's bodies whose callback
        removes bodies from the array being walked. It visits each index below the starting
        length while a body is still there; as the world never grows during the walk, that is
        each index below the current length. Removing the body at index k moves the next one
        into index k, behind the walk. */
    method UpdatePhysics(timePassed: real)
      requires IdsIncreasing(world)
      modifies this`world
      ensures world == Sweep(old(world), timePassed)
    {
      // the bodies walked past, and those still ahead of the walk
      ghost var done: seq<Body> := [];
      ghost var rest := world;
      var k := 0;
      while k < |world|
        invariant world == done + rest
        invariant |done| <= k <= |done| + 1 && (k == |done| || rest == [])
        invariant Sweep(old(world), timePassed) == done + Sweep(rest, timePassed)
        invariant IdsIncreasing(world)
        decreases |world| - k
      {
        ghost var b := Aged(rest[0], timePassed);
        SweepVisit(done, rest, timePassed);
        VisitedInPlace(done, rest, b);
        AgeBodyAt(k, timePassed);
        if Expired(b) {
          if |rest| > 1 {
            done, rest := done + [rest[1]], rest[2..];
          } else {
            rest := [];
          }
        } else {
          done, rest := done + [b], rest[1..];
        }
        k := k + 1;
      }
    }

    /** The height part of cameraOrbitController: the orbit turns, the camera aims at a height
        set by the number of layers, and the look-at target follows the top layer. */
    method CameraOrbitController()
      requires |stack| >= 1
      modifies this`orbitAngle, this`cameraHeight, this`lookAtHeight
      ensures orbitAngle == old(orbitAngle) + OrbitStep(|stack|)
      ensures cameraHeight == CameraHeight(|stack|, boxHeight)
      ensures lookAtHeight == stack[|stack| - 1].y
    {
      orbitAngle := orbitAngle + OrbitStep(|stack|);
      cameraHeight := CameraHeight(|stack|, boxHeight);
      lookAtHeight := stack[|stack| - 1].y;
    }

    /** fogFadeController. */
    method FogFadeController()
      modifies this`fogDensity
      ensures fogDensity == if fogEnabled then FogStep(|stack|, old(fogDensity)) else old(fogDensity)
    {
      if fogEnabled {
        fogDensity := FogStep(|stack|, fogDensity);
      }
    }

    /** How far the top layer can travel in the given time. */
    function Travel(timePassed: real): real
    {
      speed * timePassed
    }

    /** The distance covered grows in proportion to the time: two frames cover what one frame
        of their combined time covers, and no time covers no distance. */
    lemma TravelAdds(t1: real, t2: real)
      ensures Travel(t1) + Travel(t2) == Travel(t1 + t2)
      ensures Travel(0.0) == 0.0
    {
    }

    /** The play part of a frame on play state p once a previous frame's time is known: the
        slide and autopilot block over the distance covered in the time passed, then the
        physics tick on the world it leaves. */
    function Frame(p: Play, precision: real, timePassed: real): Outcome
      requires Moving(p)
    {
      var o := Advance(p, precision, Travel(timePassed));
      Outcome(o.report, o.play.(world := Sweep(o.play.world, timePassed)))
    }

    /** The work of a frame once a previous frame's time is known: the play state moves on by
        one frame, then camera and fog follow the tower. */
    method FrameAfterFirst(timePassed: real, random: real) returns (report: Report)
      requires Valid()
      modifies this`stack, this`overhangs, this`world, this`nextBody, this`gameEnded, this`robotPrecision,
        this`orbitAngle, this`cameraHeight, this`lookAtHeight, this`fogDensity
      ensures Valid()
      ensures Outcome(report, Now()) == Frame(old(Now()), old(robotPrecision), timePassed)
      ensures orbitAngle == old(orbitAngle) + OrbitStep(|stack|)
      ensures cameraHeight == CameraHeight(|stack|, boxHeight) && lookAtHeight == stack[|stack| - 1].y
      ensures fogDensity == if fogEnabled then FogStep(|stack|, old(fogDensity)) else old(fogDensity)
    {
      report := AdvanceAndTick(timePassed, random);
      ghost var ticked := Now();
      label Ticked:
      CameraOrbitController();
      FogFadeController();
      assert unchanged@Ticked(this`stack, this`overhangs, this`world, this`nextBody, this`gameEnded, this`robotPrecision);
      assert Now() == ticked;
    }

    /** The first part of a frame: the slide and autopilot block, then the physics tick, which
        ages the world the block left. */
    method AdvanceAndTick(timePassed: real, random: real) returns (report: Report)
      requires Valid()
      modifies this`stack, this`overhangs, this`world, this`nextBody, this`gameEnded, this`robotPrecision
      ensures Valid()
      ensures Outcome(report, Now()) == Frame(old(Now()), old(robotPrecision), timePassed)
    {
      report := AdvanceTopLayer(Travel(timePassed), random);
      label Moved:
      ghost var advanced := Now();
      UpdatePhysics(timePassed);
      SweepKeepsIds(advanced.world, nextBody, timePassed);
      assert unchanged@Moved(this`stack, this`overhangs, this`nextBody, this`gameEnded, this`robotPrecision);
    }

    /** One animation frame of a started game at the given timestamp. The first frame after a
        reset only records the time. Afterwards the play state moves on by one frame, then
        camera and fog follow the tower. Layers below the top never change, the stack grows by
        at most one layer, and an ended game stays ended with its tower as it was. */
    method Animation(time: real, random: real) returns (report: Report)
      requires Valid()
      modifies this
      ensures Valid()
      ensures lastTime == time
      ensures old(lastTime) == 0.0 ==>
        report == Silent && Now() == old(Now()) && orbitAngle == old(orbitAngle) &&
        cameraHeight == old(cameraHeight) && lookAtHeight == old(lookAtHeight) && fogDensity == old(fogDensity)
      ensures old(lastTime) != 0.0 ==>
        Outcome(report, Now()) == Frame(old(Now()), old(robotPrecision), time - old(lastTime)) &&
        orbitAngle == old(orbitAngle) + OrbitStep(|stack|) &&
        cameraHeight == CameraHeight(|stack|, boxHeight) && lookAtHeight == stack[|stack| - 1].y &&
        fogDensity == if fogEnabled then FogStep(|stack|, old(fogDensity)) else old(fogDensity)
      ensures KeepsLowerLayers(old(Now()), Now()) && StaysEnded(old(Now()), Outcome(report, Now()))
    {
      report := Silent;
      if lastTime != 0.0 {
        FrameKeepsLowerLayers(Now(), robotPrecision, time - lastTime);
        report := FrameAfterFirst(time - lastTime, random);
      }
      lastTime := time;
    }

    /** A frame changes only the top layer or adds one above it, and once the game has ended it
        leaves the tower and the fragments as they were. */
    lemma FrameKeepsLowerLayers(p: Play, precision: real, timePassed: real)
      requires Moving(p)
      ensures KeepsLowerLayers(p, Frame(p, precision, timePassed).play)
      ensures StaysEnded(p, Frame(p, precision, timePassed))
    {
    }
  }
}
