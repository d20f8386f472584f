# Runner game simulation core, in Dafny

A model of the simulation core of a browser side-scrolling runner game
(`game.js`). A player block runs on a ground band and can jump up to four
times before landing. Obstacles scroll in from the right, and clouds drift
in the background. The score counts surviving ticks, and the game speed
rises by 0.5 every 1000 points. A collision ends the game.

The model has these parts:

- **Game** (`game.dfy`): the game's globals as one `World` object and the
  player as a `Player` object. Each function of the game that changes them
  is one method, with the order of steps inside a tick (`GameLoop`), the
  reset (`Init`), the input handlers' state changes (`KeyDown`,
  `TouchStart`) and the resize (`SetCanvasSize`, `UpdateGamePositions`).
  The two splice loops of the game are module-level methods on list values:
  - `ScrollObstacles` for the obstacles;
  - `DriftClouds` for the clouds.

  Each is proved equal to the function that specifies it.
- **Viewport** (`viewport.dfy`): the canvas size computed from the window
  size and the device class, and how one cloud or obstacle is moved after
  a resize.
- **Physics** (`physics.dfy`): gravity and the ground clamp, the jump, and
  lemmas over any sequence of ticks and jump commands.
- **Collision** (`collision.dfy`): strict rectangle overlap and the scan
  over the obstacles.
- **Spawner** (`spawner.dfy`): the spawn guard, and what one tick does to
  the obstacle list (`Advance`) and to the cloud list (`CloudPass`).
- **Scoring** (`scoring.dfy`): the speed ramp and its closed form, and the
  displayed score.
- **Invariants** (`invariants.dfy`): what holds of the globals between
  events, and one lemma per update showing that the update keeps it.
- **Entities** (`entities.dfy`): the obstacle and cloud records, and the
  two factories that create them.

Every `Math.random()` result is a parameter in `[0, 1)`. A tick takes the
following draws:
- one draw for the spawn test;
- one draw for the obstacle height;
- a list of five-draw `CloudDraw`s, one for each cloud that may be replaced
  (at most one per cloud on screen).

A resize takes one two-draw `Reloc` per cloud. The window size and whether
the user agent looks mobile are a `Host` parameter, and the pressed key and
the number of touch points are parameters too.

Two places where the behaviour differs from what the code's own comments
suggest:

- The desktop branch of `setCanvasSize` keeps the 2:1 ratio only up to one
  pixel. A canvas dimension is an integer attribute, so `maxWidth / 2` is
  truncated. A 1010 by 1000 window gives a 909 by 454 canvas
  (`Viewport.DesktopRatioOffByOne`).
- `init` and every resize put the player at `canvas.height - 60`. The
  ground clamp line is `canvas.height - 70`, so the player starts 10 pixels
  inside the ground. On a 400-high canvas the first tick takes y from 340
  to 340.4, and the clamp sets it back to 330
  (`Physics.SpawnPointSnapsToGround`).

## Model

| member | source | states |
|---|---|---|
| Entities.NewCloud | game.js:237-246 | a new cloud starts 0 to 500 pixels right of the canvas, in its upper half, 60 to 140 wide, 40 to 80 high, with a speed of 0.5 to 1 |
| Entities.NewObstacle | game.js:316-325 | a new obstacle is at the right edge, 30 wide and 40 to 100 high, and stands on the ground line (`y + height == ground.y`) |
| Viewport.CanvasSize | game.js:14-40 | mobile landscape uses the window size; mobile portrait is `2 * innerHeight` by `innerHeight`; desktop is at most 1200 by 600, within 90% by 80% of the window, reaches one of those two limits up to the truncated pixel, and has `2h <= w <= 2h + 1` |
| Viewport.DesktopRatioOffByOne | game.js:29-39 | a 1010 by 1000 desktop window gives 909 by 454: the 2:1 ratio is off by the truncated half pixel |
| Viewport.Relocate | game.js:66-75 | a cloud right of the canvas moves to within 500 pixels of its right edge; a cloud below the upper half moves into it; otherwise x and y are unchanged, and size and speed never change |
| Viewport.Reground | game.js:78-82 | a regrounded obstacle stands on the new ground line, with x and size unchanged |
| Physics.Fall | game.js:281-292 | after gravity and the clamp the player is never below the ground line; landing zeroes the velocity, clears `jumping` and refills 4 jumps; in the air the velocity grows by 0.4, y moves by it, and the jump state is unchanged |
| Physics.Jumped | game.js:394-398 | with no jump left nothing changes; otherwise the player is jumping with velocity -15, one jump fewer, at the same position |
| Physics.TouchJumped | game.js:411-419 | zero touches change nothing; any number of touches performs exactly one `Jumped`, so at most one jump is used |
| Physics.SpawnPointSnapsToGround | game.js:174 | the start position is 10 pixels below the ground line, and the first tick puts the player on the line at rest with 4 jumps |
| Physics.JumpBudget | game.js:390-399 | without landing, every jump command uses one jump until none is left: the count ends at `max(0, jumps - commands)` |
| Physics.JumpCountBounded | game.js:281-292 | over any sequence of ticks and jump commands the jump count stays between 0 and 4, and after a tick the player is on or above the ground line |
| Collision.CheckCollision | game.js:358-368 | returns true exactly when some obstacle overlaps the player by all four strict inequalities |
| Collision.OverlapsSymmetric | game.js:360-363 | the overlap test gives the same answer with the two rectangles swapped |
| Collision.EdgeContactIsNoCollision | game.js:360-363 | rectangles that only share an edge do not collide |
| Collision.OverlapExamples | game.js:360-363 | overlapping squares collide; squares apart, or touching along an edge, do not |
| Scoring.RampClosedForm | game.js:371-379 | after n scored ticks from `init` the speed is `3 + 0.5 * (n / 1000)`, with integer division |
| Scoring.RampMonotone | game.js:376-378 | the speed never decreases as the score grows |
| Scoring.DisplayedScore | game.js:384 | the shown score d satisfies `10d <= score < 10d + 10`, which is `floor(score / 10)` |
| Scoring.DisplayedScoreMonotone | game.js:373 | the shown score never decreases, and ten more points show exactly one more |
| Spawner.Spawn | game.js:331-335 | one new obstacle is appended exactly when the draw is under 0.01 and the list is empty or its last obstacle is more than 300 pixels in from the right edge; otherwise the list is unchanged |
| Spawner.Advance | game.js:338-346 | the list after the loop is no longer than before, and every obstacle in it is not wholly off-screen |
| Spawner.AdvanceSelects | game.js:338-346 | the survivors are exactly the obstacles still on screen once moved, in their old order, each moved left by exactly the speed and otherwise unchanged |
| Spawner.SpawnKeepsSpacing | game.js:331-335 | the spawn guard keeps any two obstacles more than 300 pixels apart in order of creation |
| Spawner.AdvanceKeepsSpacing | game.js:338-346 | moving and dropping obstacles keeps that spacing |
| Spawner.AdvanceKeepsObstaclesOk | game.js:338-346 | survivors keep their width, height and ground line |
| Spawner.CloudPass | game.js:249-262 | a cloud pass leaves the number of clouds unchanged |
| Spawner.NewCloudStays | game.js:239-243 | a new cloud, once drifted, is never removed in the pass that created it, so the cloud loop ends |
| Spawner.CloudPassKeepsOk | game.js:249-262 | every cloud after a pass has a size and speed `createCloud` can give, lies in the upper half, and is not wholly off-screen |
| Spawner.PassStep | game.js:250-261 | one iteration of the cloud loop: drift the cloud at i; if it is gone, splice it out, step back and push a new cloud; the loop's invariant is kept |
| Spawner.PassEnd | game.js:250 | when the cloud loop runs off the end, the list is the `CloudPass` of the old list |
| Spawner.VisitObstacle | game.js:338-346 | one iteration of the obstacle loop moves the obstacle at i and splices it out when it is off-screen, keeping the loop's invariant |
| Invariants.ObstacleTickKeepsFitted | game.js:328-347 | `updateObstacles` keeps every obstacle shaped, on the ground and spaced |
| Invariants.CloudTickKeepsFitted | game.js:249-262 | `updateClouds` keeps every cloud shaped and in the upper half |
| Invariants.RefitIsFitted | game.js:47-83 | after `updateGamePositions` the ground, background, obstacles and clouds all fit the new canvas |
| Invariants.RestartIsFitted | game.js:165-186 | the world `init` leaves behind fits the canvas |
| Game.ScrollObstacles | game.js:338-346 | the in-place splice loop yields exactly `Advance` of the list |
| Game.DriftClouds | game.js:249-262 | the splice-and-push loop terminates and yields exactly `CloudPass` of the list |
| Game.Player.constructor | game.js:118-135 | the player starts at rest, not jumping, with 4 jumps |
| Game.World.constructor | game.js:112-161 | the globals as the script sets them up, after its first `setCanvasSize`: score 0, speed 3, not running, no obstacles or clouds |
| Game.World.SetCanvasSize | game.js:14-44 | the canvas takes `CanvasSize` of the window; then the world is refitted, with score, speed and running flag unchanged |
| Game.World.UpdateGamePositions | game.js:47-83 | ground at `canvas.height - 20`; player at (100, `canvas.height - 60`) with velocity and jumps unchanged; each cloud `Relocate`d and each obstacle `Reground`ed; only these fields change |
| Game.World.Init | game.js:165-190 | refits the canvas, then score 0, speed 3, no obstacles, exactly the five new clouds, the player at its start with 4 jumps, and running |
| Game.World.CreateCloud | game.js:237-246 | appends exactly one `NewCloud` |
| Game.World.UpdateClouds | game.js:249-262 | the cloud list becomes its `CloudPass`, and the world invariant is kept |
| Game.World.UpdatePlayer | game.js:281-300 | the player becomes its `Fall` |
| Game.World.GenerateObstacle | game.js:316-325 | appends exactly one `NewObstacle` |
| Game.World.UpdateObstacles | game.js:328-347 | the obstacle list becomes `Advance(Spawn(...), gameSpeed)`, and the world invariant is kept |
| Game.World.UpdateScore | game.js:371-379 | score goes up by exactly 1; speed goes up by 0.5 exactly when the new score is a multiple of 1000 |
| Game.World.EndGame | game.js:382-387 | the game stops and the final score is `floor(score / 10)` |
| Game.World.GameLoop | game.js:193-224 | while not running nothing changes; otherwise clouds, then player, then obstacles are updated, and the canvas is not touched; a collision stops the game with score and speed unchanged, and no collision scores one point with the ramped speed |
| Game.World.KeyDown | game.js:390-400 | other keys change nothing; Space restarts a stopped game exactly as `init` does, and while running it performs `Jumped` and nothing else |
| Game.World.TouchStart | game.js:403-420 | a touch on a stopped game restarts it; while running, the loop over touch points uses at most one jump (`TouchJumped`) and nothing else changes |

## Left out

- Drawing: the background, clouds, ground, player, obstacles, the start screen and every canvas context call. They have no effect on the game state.
- The DOM readouts and the orientation handling: score texts, the game-over panel and `checkOrientation`. Only `gameRunning` is kept.
- Event plumbing and scheduling: listener registration, `requestAnimationFrame`, the 100 ms `setTimeout` after an orientation change, and `preventDefault`. One tick is one `GameLoop` call, and the restart button is `Init`.
- User-agent detection: `isMobile` is a field of the `Host` parameter.
- The distribution of `Math.random()`: each draw is a parameter in `[0, 1)`, and the 1% spawn chance is only the `r < 0.01` guard.
- Sprite animation counters and the unused `background.speed`: they are cosmetic.
- Floating point: positions, speeds and sizes are exact reals, not IEEE doubles. Rounding in the 0.4 gravity steps and the 0.5 speed steps is not modelled.
- Canvas dimensions are non-negative integers, truncated from the computed size. Values beyond the attribute's 32-bit range are not modelled.
- The obstacle and cloud arrays are `seq` values that the loops reassign, not arrays spliced in place. The records inside them are values, so `forEach` and `x -= speed` build updated records. No other code holds the arrays or the records, so no aliasing is lost.
- Viewport.CanvasSize: on desktop the ratio is stated as `2h <= w <= 2h + 1` rather than the exact 2:1 that the code's comment promises, because truncating the canvas attribute can lose half a pixel.
- Game.DriftClouds: one cloud draw is needed for each cloud that may be replaced, so the caller supplies at least as many draws as there are clouds.
