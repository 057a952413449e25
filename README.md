# Stacking tower: a verified model of the game's state

This project models the gameplay core of a browser stacking game (`js/main.js`). A layer
slides back and forth above a tower. When the player commits it, the part still over the
layer below stays, the part that overshoots is cut off and falls, and a new layer starts
sliding along the other axis. A layer that misses the tower entirely falls as a whole, and
the game ends.

The model keeps what the game decides for itself:

- the tower of layers, with their footprints, heights and slide directions;
- the falling fragments;
- the bodies the game puts into the physics world: their ids, mass, box shape and
  lifetime countdown;
- the game-over flag and the autopilot's precision;
- the camera's target heights and the fog density.

Rendering and the rigid-body simulation belong to external engines and are left out.

Modules:

- Blocks: axes, slide directions, footprints and boxes (a layer or a fragment), and the
  sign and absolute-value helpers the source uses.
- Slide: the per-frame movement of the top layer. This covers its direction of travel,
  the autopilot's stop rule and the bounds past which a layer has missed.
- Cutting: the cut of the top layer against the layer below. It gives the overlap, the
  kept block, the falling fragment and where the next layer starts.
- Physics: the body list of the physics world. This covers the mass rule, `world.remove`,
  the shape replacement of a cut body and the lifetime walk of a physics tick.
- Camera: the camera target height, the orbit step and the fog fade, as functions of
  the number of layers.
- Stacking: the invariants a session keeps, with a lemma for each step that preserves
  them. The tower keeps its layers levelled, their slide axes alternating and each layer
  no larger than the one below. The world keeps its body ids in increasing order.
- Game: class `Session`. It holds the source's module-level state as fields, and its
  methods are the source's functions (`Initialize`, `startGame`, `addLayer`,
  `addOverhang`, `splitBlockAndAddNextOneIfOverlaps`, `missedTheSpot`, one frame of
  `animation`, `updatePhysics`, `cameraOrbitController`, `fogFadeController`,
  `setRobotPrecision`). `Game.Play` is the part of the state the game's moves change:
  the tower, the fragments, the world's bodies, the body counter and the game-over flag.
  Each move is also a function from the old play state to an `Outcome` (what the player
  is shown and the new play state): `MissPath`, `HitPath`, `Split`, `SlidePath`,
  `Advance` and `Frame`. Each method is proved to leave exactly the outcome its function
  gives.

The source's `world.bodies.forEach` callback removes bodies from the array it walks. The
model keeps that behaviour:

- Physics.Sweep states what one tick does. The body that shifts into the slot of a
  removed one is skipped for that tick, with its lifetime untouched.
- Game.Session.UpdatePhysics walks the world index by index, as the source does. It is
  proved to produce the state `Physics.Sweep` describes.

The configuration globals (`TOWER_ORIGINAL_HEIGHT`, `AUTOPILOT_ERROR`, …) are constructor
arguments. JavaScript's `setting || default` is `Game.OrElse`, with 0 standing for unset.

Where the code differs from the behaviour the game is usually described as having, the
model follows the code:

- A body is removed once its lifetime is strictly below zero (`< 0` at
  `js/main.js:509`), not when it reaches zero. The walk ages every body in the world, the
  static ones included, not only the falling fragments.
- A perfect hit (offset 0) still adds a fragment, with zero extent along the slide axis
  (`js/main.js:387`).
- The second base layer starts at x = -10 whatever the configured offset
  (`js/main.js:93`).

## Model

| member | source | states |
|---|---|---|
| `Blocks.Sign` | js/main.js:375 | Math.sign: 1, -1 or 0, positive exactly for positive inputs and negative exactly for negative ones |
| `Blocks.Abs` | js/main.js:368 | Math.abs: never negative, and the number or its negation |
| `Blocks.Scale` | js/main.js:469 | a number times a sign, as a case split: the number for a positive sign, its negation for a negative sign, 0 for a zero sign |
| `Blocks.ScaleIsProduct` | js/main.js:469 | the case split equals the product `distance * sign` the source writes |
| `Blocks.SignTimesAbs` | js/main.js:368-375 | the offset is its sign times the overhang size |
| `Slide.SlideSign` | js/main.js:452 | the direction of travel of the top layer is -1 exactly when the stack length mod 4 is below 2, and 1 otherwise |
| `Slide.SlideSignCycle` | js/main.js:452 | the direction repeats every four layers and flips every two |
| `Slide.BoxShouldMove` | js/main.js:454-465 | never moves once the game has ended; always moves without autopilot; under autopilot moves exactly while the layer has not yet reached the layer below offset by the precision, in its direction of travel |
| `Slide.OutOfBounds` | js/main.js:473-474 | the test is one-sided: moving up, a miss exactly past 11; moving down, a miss exactly past -11; never without a direction, and never within ±11 |
| `Slide.Moved` | js/main.js:469-470 | one frame's travel moves the top layer by the step along its slide axis; nothing else about it changes |
| `Slide.AutopilotStopsWithinOneStep` | js/main.js:454-483 | a layer the autopilot stops lies between the precision and the precision plus one step from the layer below, so the commit overlaps whenever precision and step fit inside the layer |
| `Cutting.Delta` | js/main.js:365-367 | the offset is the top's position minus the layer below's along the slide axis, positive exactly when the top has stopped past it and negative exactly when it has stopped short of it |
| `Cutting.Overlap` | js/main.js:364-369 | the overlap is at most the top's size along its axis, and equals it exactly when the two layers are aligned on that axis |
| `Cutting.CutBox` | js/main.js:286-308 | the cut layer has the overlap as its extent along the slide axis and is moved back by half the offset; across the axis, its height, direction and body are unchanged |
| `Cutting.OverhangPiece` | js/main.js:375-385 | the fragment is as long as the offset's size along the slide axis, centred half the overlap plus half its own length from the kept block's centre on the offset's side, so it adjoins a kept block of the overlap's length; across the axis it keeps the kept block's extent and position |
| `Cutting.SplitTop` | js/main.js:356-406 | a hit exactly when the overlap is positive; on a hit the kept layer stays at the top's level with the same direction and body and is no wider or deeper than the top |
| `Cutting.SplitTopGeometry` | js/main.js:364-387 | kept block and fragment partition the top layer along the slide axis: they have the overlap and the offset size as extents, the fragment lies on the side the top overshot, a perfect hit keeps the whole layer, and over an equal-size layer the kept block is the intersection of the two |
| `Cutting.OffsetSign` | js/main.js:391 | the start-offset sign of the layer added on a stack of n layers is -1 exactly when (n + 1) mod 4 is below 2, and 1 otherwise |
| `Cutting.NextFootprint` | js/main.js:390-396 | the next layer keeps the cut layer's extents and its position along the cut axis, and starts at the configured offset times the sign along the other axis |
| `Cutting.NextLayerStartsAgainstItsSlide` | js/main.js:391 | the start sign of the next layer is the sign it will slide with, so its start coordinate times its direction of travel is the configured offset |
| `Cutting.CutExample` | js/main.js:364-385 | a layer of size 5 offset by 3 keeps 2 centred at 1.5 and drops 3 centred at 4 |
| `Cutting.MissExample` | js/main.js:369-371 | a layer of size 5 offset by 6 misses |
| `Physics.Mass` | js/main.js:271-273 | static boxes weigh 0, a full-size falling box weighs 5, and a falling box of positive size weighs more than 0 |
| `Physics.MassSplits` | js/main.js:271-273 | cutting a falling box in two along one axis splits its mass between the pieces |
| `Physics.NewBody` | js/main.js:268-276 | the body generateBox adds has the given id, the mass rule's mass, half the box's extents as its shape and no lifetime yet |
| `Physics.RemoveFirst` | js/main.js:429 | world.remove: an absent id changes nothing, and a present one removes exactly one body |
| `Physics.RemoveFirstBounds` | js/main.js:429 | removal leaves only ids between the world's first and last |
| `Physics.RemoveFirstKeepsOrder` | js/main.js:429 | removal keeps the ids in increasing order |
| `Physics.RemoveFirstRemoves` | js/main.js:429 | with increasing ids, no body with the removed id is left |
| `Physics.RemoveFirstAt` | js/main.js:509-510 | removing the body at index k splices exactly that index out |
| `Physics.Reshape` | js/main.js:302-307 | only the body with the id gets the new half-extents; the others, and the world's length, stay the same |
| `Physics.Aged` | js/main.js:505-508 | the lifetime is set to 10000 on first sight and then reduced by the time passed; nothing else about the body changes |
| `Physics.ExpiresInTick` | js/main.js:503-509 | a tick expires a body (lifetime strictly below zero) exactly when its time passed exceeds the lifetime the body had left, 10000 on its first tick |
| `Physics.Sweep` | js/main.js:503-512 | a tick never adds bodies |
| `Physics.SweepLeavesLiveOrSkipped` | js/main.js:503-512 | every body left after a tick is either one skipped as it was or one whose lifetime is not below zero |
| `Physics.SweepIdsWithin` | js/main.js:503-512 | a tick leaves only ids from the range of the world's ids |
| `Physics.SweepKeepsOrder` | js/main.js:503-512 | a tick keeps the ids in increasing order |
| `Physics.AgedInPlaceKeepsIds` | js/main.js:505-508 | ageing a body where it stands keeps the ids in order |
| `Physics.SweepVisit` | js/main.js:504-512 | how the tick goes on past one visited body: aged and kept, or removed with the next body skipped |
| `Physics.VisitedInPlace` | js/main.js:504-512 | the world during the walk, with the visited body aged in place or spliced out |
| `Physics.SweepAgesAll` | js/main.js:503-512 | when no body expires, every body stays in place and is aged exactly once |
| `Physics.SweepSkipsTheNextBody` | js/main.js:504-512 | when two bodies expire in the same tick, only the first is removed and the second stays with its lifetime untouched |
| `Physics.SweepOne` | js/main.js:504-512 | a tick of a lone body ages it or removes it |
| `Physics.LoneBodyCountdown` | js/main.js:503-509 | a lone body counts down from 10000 by the time passed per tick while its lifetime is not below zero |
| `Physics.LoneBodyExpires` | js/main.js:509-510 | the tick that takes a lone body's lifetime below zero removes it |
| `Physics.LifetimeExample` | js/main.js:503-510 | with 600 ms ticks, 400 ms are left after the 16th tick and the 17th removes the body |
| `Camera.OrbitStep` | js/main.js:524 | the orbit angle moves by -0.05 per frame, and twice that above 35 layers |
| `Camera.CameraHeight` | js/main.js:528-534 | the camera target height over n layers, in closed form for up to 34, 35 to 45 and from 45 layers |
| `Camera.CameraHeightSteps` | js/main.js:528-534 | adding a layer raises the target by half a layer up to 34 layers, by a further 14 at the 35th, by 0.6 less than half a layer up to the 45th and by 0.4 more after it |
| `Camera.FogStep` | js/main.js:556-570 | up to 35 layers the fog stays; above that a positive density drops by 0.00006 and anything else becomes 0 |
| `Camera.FogNeverRises` | js/main.js:556-570 | the fog never rises above where it started and dips at most one step below zero |
| `Camera.FogClears` | js/main.js:558-567 | over a tall tower the fog is gone once the steps taken cover the starting density |
| `Camera.FogStaysClear` | js/main.js:558-567 | cleared fog stays clear |
| `Camera.FogGoneExample` | js/main.js:558-567 | the starting density 0.016 is gone after 268 frames over a tower of more than 35 layers |
| `Stacking.SlideAxis` | js/main.js:397 | layers at odd levels slide along x and those at even levels along z |
| `Stacking.SlideAxisAlternates` | js/main.js:397 | each new layer slides along the other axis from the one below |
| `Stacking.LevelIsProduct` | js/main.js:242 | the height of a level is the level times the layer height |
| `Stacking.BaseLayers` | js/main.js:92-93 | a reset lays two base layers |
| `Stacking.NarrowingReplaceTop` | js/main.js:292-293 | replacing the top by a block that fits on the layer below keeps every layer no larger than the one below it |
| `Stacking.NarrowingAppend` | js/main.js:395-396 | adding a block that fits on the top keeps every layer no larger than the one below it |
| `Stacking.BaseLayersFormTower` | js/main.js:92-93 | the two base layers form a tower: levelled, alternating, narrowing, with the moving layer as large as the one below |
| `Stacking.ReplaceTopKeepsTower` | js/main.js:469-470 | moving the top layer keeps the tower's shape |
| `Stacking.HitKeepsTower` | js/main.js:371-402 | cutting the top and adding the next layer above it keeps the tower's shape |
| `Stacking.HitKeepsLevels` | js/main.js:242 | after a hit every layer is still one layer height above the previous |
| `Stacking.HitKeepsAlternating` | js/main.js:397 | after a hit the slide axes still alternate |
| `Stacking.HitKeepsNarrowing` | js/main.js:292-293 | after a hit no layer is larger than the one below it |
| `Stacking.AppendKeepsIds` | js/main.js:276 | adding bodies with the next ids keeps the ids increasing and below the counter |
| `Stacking.RemoveKeepsIds` | js/main.js:429 | removing a body keeps the ids increasing, and none with its id is left |
| `Stacking.ReshapeKeepsIds` | js/main.js:303-307 | replacing a body's shape keeps the ids |
| `Stacking.SweepKeepsIds` | js/main.js:503-512 | a physics tick keeps the ids increasing and below the counter |
| `Game.OrElse` | js/main.js:52 | a numeric setting or its fallback, the JavaScript `or` on numbers: the setting unless it is 0, which stands for unset |
| `Game.Session.FloorBody` | js/main.js:109-114 | the floor is a static body without a lifetime |
| `Game.Session.constructor` | js/main.js:117-186 | settings take their defaults; the session starts with the two base layers, their bodies and the floor with ids 0 to 2, the game running, the orbit one step on from 45 degrees, the camera aimed at a two-layer tower, and the fog at its starting density when enabled and 0 otherwise |
| `Game.Session.GenerateBody` | js/main.js:268-276 | the body of a generated box has the given id, a box shape of half the footprint's extents and half the layer height, the mass rule's mass (0 for a static box) and no lifetime yet |
| `Game.Session.SetRobotPrecision` | js/main.js:50-53 | the precision is the configured autopilot error (0 when unset), whatever the random draw |
| `Game.Session.ResetCamera` | js/main.js:76-90 | the orbit restarts at 45 degrees, the camera at height 20 aimed at the ground |
| `Game.Session.Initialize` | js/main.js:55-115 | the tower is the two base layers, no fragments, the world gains their two static bodies and the floor, the camera and fog are reset, and the session invariant holds |
| `Game.Session.LayBase` | js/main.js:92-115 | the base layers and the floor, in that order and with consecutive ids, forming a tower |
| `Game.Session.StartGame` | js/main.js:198-239 | after a restart the world holds only the new base bodies and the floor, the game is running, the body counter moves on by the three new bodies, and the state depends on nothing but the settings and the old body counter |
| `Game.Session.AddLayer` | js/main.js:241-246 | a static layer one level above the current top, with its body added to the world |
| `Game.Session.AddOverhang` | js/main.js:248-252 | a falling fragment at the level of the current top, with its falling body added to the world |
| `Game.Session.MissedTheSpot` | js/main.js:412-439 | the new play state and score are `MissPath` of the old one: the top becomes a falling fragment of its place and size with a new falling body, the top's own body leaves the world and no body with its id is left, the game ends with the number of layers placed on the base as the score, and the invariant holds |
| `Game.Session.SplitBlockAndAddNextOneIfOverlaps` | js/main.js:356-410 | the report and new play state are `Split` of the old one: after the game has ended nothing changes; otherwise a miss runs the miss path and a hit runs the hit path and shows the number of layers placed as the score; the invariant holds |
| `Game.Session.PlaceCut` | js/main.js:371-402 | the new play state is `HitPath` of the old one: the top becomes the kept block with its body reshaped, the fragment falls from the top's level, and the next layer starts at the offset along the other axis, one level up, with two new bodies of consecutive ids; the tower's shape and the ids are kept |
| `Game.Session.CutTop` | js/main.js:286-308 | the top layer becomes the kept block and its body gets the kept size |
| `Game.Session.AddPieceAndNext` | js/main.js:387-402 | the fragment and the next layer are added with consecutive new ids |
| `Game.Session.SlideTop` | js/main.js:467-476 | the report and new play state are `SlidePath` of the old one: the top layer travels one step along its axis, and a layer past the far bound on its side runs the miss path; otherwise nothing else changes |
| `Game.Session.CommitByAutopilot` | js/main.js:480-483 | the report and new play state are `Split` of the old one, and the precision is set again |
| `Game.Session.AdvanceTopLayer` | js/main.js:447-485 | the report and new play state are `Advance` of the old state and precision: the top layer moves by the distance times its direction of travel while it should; otherwise under autopilot it is committed; otherwise nothing changes |
| `Game.Session.AgeBodyAt` | js/main.js:505-511 | the visited body is aged where it stands, or spliced out once its lifetime is below zero |
| `Game.Session.UpdatePhysics` | js/main.js:500-512 | the index-by-index walk over the world that removes as it goes ends in exactly the world `Sweep` describes |
| `Game.Session.CameraOrbitController` | js/main.js:521-554 | the orbit turns by one step, the camera target height follows the number of layers, and the camera looks at the top layer's height |
| `Game.Session.FogFadeController` | js/main.js:556-570 | with fog enabled the density takes one fade step for the tower's height; otherwise it is left alone |
| `Game.Session.TravelAdds` | js/main.js:445-469 | `Travel`, the speed times the time passed: the distance is additive in the time, and no time covers no distance |
| `Game.Session.AdvanceAndTick` | js/main.js:444-487 | the report and new play state are `Frame` of the old state, precision and time passed: the slide and autopilot block over the speed times the time passed, then the physics tick on the world that block left |
| `Game.Session.FrameAfterFirst` | js/main.js:443-490 | the report and new play state are `Frame` of the old ones; then the orbit turns one step, the camera targets follow the new tower and the fog takes one fade step when enabled |
| `Game.Session.FrameKeepsLowerLayers` | js/main.js:447-487 | a frame never changes the layers below the top and adds at most one layer; once the game has ended it reports nothing and leaves the tower and the fragments as they were |
| `Game.Session.Animation` | js/main.js:441-498 | the first frame after a reset only records the time and changes nothing else; a later frame leaves the report and play state `Frame` gives for the time since the previous frame, with camera and fog following; lower layers never change, an ended game stays ended, and the invariant holds throughout |

## Left out

- Rendering is left out: three.js meshes, materials, colours, shadows, the box base,
  cover and roof decorations, the sky, the external assets and `updateExternalAssets`.
- Audio, the DOM, the score element, the result and menu screens and `console.log` are
  left out. None of them affect the game state.
- The rigid-body simulation is left out. This covers `world.step`, gravity, collisions,
  the bodies' positions and orientations, and the copy of fragment positions from
  physics to visuals (`js/main.js:515-518`). A layer's visual and physical positions move
  together, so the model keeps one footprint per layer.
- Input handling is left out: `eventHandler`, the `gameStarted` and `startTheGame` gates,
  and the click and key listeners. `Game.Session.Animation` models one frame of a started
  game. A player's commit is `Game.Session.SplitBlockAndAddNextOneIfOverlaps` itself.
- init's engine, camera and renderer construction and `Initialize`'s renderer, shadow,
  music and fog-colour setup are left out. The settings are fixed when the session is
  constructed, so `Initialize` and `startGame` re-reading them (including
  `autopilot` at `js/main.js:206`) changes nothing.
- Initialize's `resetCamera` parameter is always true at its two direct call sites
  (`js/main.js:182` and `237`), so the model always resets the camera.
- `js/main.js:587-588` also installs `Initialize` as the graphic-settings callback and
  calls `updateGraphicSettings`, which is not part of this model. A run of `Initialize`
  from there resets the tower, the fragments and the camera without clearing the world
  or the game-over flag, and is not modelled: the session runs `Initialize` only from
  its constructor and from `Game.Session.StartGame`.
- The `if (world)` and `if (scene)` guards of `startGame` are not modelled. Both objects
  exist from `init` on. Removing the scene's meshes is rendering.
- The camera's x and z coordinates (cosine and sine of the orbit angle), the linear
  interpolation towards the targets and `PLACEMENT_MODE` are left out. The model keeps
  the target heights the source computes. `enableOrbit` is always true after a reset.
- Math.random in `setRobotPrecision` is a parameter. Its value is overwritten at once.
- Numbers are mathematical reals. IEEE-754 rounding is not modelled.
- Game.Session.AddOverhang requires a non-empty stack. Every call happens with a top
  layer present, and the level of an empty stack's top is not defined.
- Game.Session.SlideTop requires a running game. Its only caller reaches it when the
  layer should move, which already implies the game has not ended.
- Game.Session.MissedTheSpot and `Game.Session.SplitBlockAndAddNextOneIfOverlaps`
  require the session invariant, which holds from construction on. The source assumes
  at least two layers.
- Physics.Sweep states only that a tick never adds bodies. What it does to each body is
  stated by the lemmas beside it and by `Game.Session.UpdatePhysics`, which is proved
  against it.
- Stacking.BaseLayers states only the number of layers. Their shape is stated by
  `Stacking.BaseLayersFormTower` and by the `Initialize` contract.
