/** What holds of the game's globals between two events, as predicates over
    their values, and how each update of `Game.World` keeps it. */
module Invariants {
  import opened Entities
  import opened Viewport
  import opened Physics
  import opened Spawner
  import opened Scoring

  /** What holds whatever the canvas size: the canvas is not negative, the jump
      count is within its bounds, the speed is the one the score implies, the
      obstacles are spaced and have the shape `generateObstacle` gives them, and
      the clouds the shape `createCloud` gives them. */
  ghost predicate Resizable(canvasWidth: int, canvasHeight: int, jumpsRemaining: int, score: int,
                            gameSpeed: real, obstacles: seq<Obstacle>, clouds: seq<Cloud>)
  {
    0 <= canvasWidth && 0 <= canvasHeight
    && 0 <= jumpsRemaining <= MaxJumps
    && 0 <= score && gameSpeed == RampedSpeed(score)
    && Spaced(obstacles)
    && (forall k :: 0 <= k < |obstacles| ==> ObstacleShape(obstacles[k]))
    && (forall k :: 0 <= k < |clouds| ==> CloudShape(clouds[k]))
  }

  /** ... and, once `updateGamePositions` has run, the ground, the background
      and every obstacle and cloud fit the canvas. */
  ghost predicate Fitted(canvasWidth: int, canvasHeight: int, groundY: real,
                         backgroundWidth: int, backgroundHeight: int, jumpsRemaining: int, score: int,
                         gameSpeed: real, obstacles: seq<Obstacle>, clouds: seq<Cloud>)
  {
    Resizable(canvasWidth, canvasHeight, jumpsRemaining, score, gameSpeed, obstacles, clouds)
    && groundY == canvasHeight as real - GroundHeight
    && backgroundWidth == canvasWidth && backgroundHeight == canvasHeight
    && ObstaclesOk(obstacles, groundY)
    && CloudsOk(clouds, canvasHeight)
  }

  /** `updateObstacles` keeps the obstacles spaced, shaped and on the ground. */
  lemma {:induction false} ObstacleTickKeepsFitted(canvasWidth: int, canvasHeight: int, groundY: real,
      backgroundWidth: int, backgroundHeight: int, jumpsRemaining: int, score: int, gameSpeed: real,
      obstacles: seq<Obstacle>, clouds: seq<Cloud>, rSpawn: real, rHeight: real)
    requires Unit(rHeight)
    requires Fitted(canvasWidth, canvasHeight, groundY, backgroundWidth, backgroundHeight,
                    jumpsRemaining, score, gameSpeed, obstacles, clouds)
    ensures Fitted(canvasWidth, canvasHeight, groundY, backgroundWidth, backgroundHeight,
                   jumpsRemaining, score, gameSpeed,
                   Advance(Spawn(obstacles, canvasWidth, groundY, rSpawn, rHeight), gameSpeed), clouds)
  {
    var spawned := Spawn(obstacles, canvasWidth, groundY, rSpawn, rHeight);
    SpawnKeepsSpacing(obstacles, canvasWidth, groundY, rSpawn, rHeight);
    AdvanceKeepsSpacing(spawned, gameSpeed);
    forall k | 0 <= k < |spawned|
      ensures spawned[k].width == ObstacleWidth && 40.0 <= spawned[k].height < 100.0
      ensures spawned[k].y + spawned[k].height == groundY
    {
      if k < |obstacles| {
        assert spawned[k] == obstacles[k] && ObstacleOk(obstacles[k], groundY);
      }
    }
    AdvanceKeepsObstaclesOk(spawned, gameSpeed, groundY);
    var r := Advance(spawned, gameSpeed);
    assert forall k :: 0 <= k < |r| ==> ObstacleShape(r[k]);
  }

  /** `updateClouds` keeps every cloud shaped and in the upper half. */
  lemma {:induction false} CloudTickKeepsFitted(canvasWidth: int, canvasHeight: int, groundY: real,
      backgroundWidth: int, backgroundHeight: int, jumpsRemaining: int, score: int, gameSpeed: real,
      obstacles: seq<Obstacle>, clouds: seq<Cloud>, draws: seq<CloudDraw>)
    requires |draws| >= |clouds| && AllValid(draws)
    requires Fitted(canvasWidth, canvasHeight, groundY, backgroundWidth, backgroundHeight,
                    jumpsRemaining, score, gameSpeed, obstacles, clouds)
    ensures Fitted(canvasWidth, canvasHeight, groundY, backgroundWidth, backgroundHeight,
                   jumpsRemaining, score, gameSpeed, obstacles,
                   CloudPass(clouds, canvasWidth, canvasHeight, draws))
  {
    CloudPassKeepsOk(clouds, canvasWidth, canvasHeight, draws);
  }

  /** `updateGamePositions` refits a world that holds `Resizable` to its canvas:
      the ground and background follow the canvas, each cloud is relocated and
      each obstacle put back on the ground. */
  lemma {:induction false} RefitIsFitted(canvasWidth: int, canvasHeight: int, jumpsRemaining: int,
      score: int, gameSpeed: real, oldObstacles: seq<Obstacle>, oldClouds: seq<Cloud>,
      obstacles: seq<Obstacle>, clouds: seq<Cloud>, draws: seq<Reloc>)
    requires 0 <= canvasWidth && 0 <= canvasHeight
    requires |draws| >= |oldClouds| && forall d | d in draws :: d.Valid()
    requires |clouds| == |oldClouds| && forall k :: 0 <= k < |clouds| ==>
      clouds[k] == Relocate(oldClouds[k], Size(canvasWidth, canvasHeight), draws[k])
    requires |obstacles| == |oldObstacles| && forall k :: 0 <= k < |obstacles| ==>
      obstacles[k] == Reground(oldObstacles[k], canvasHeight as real - GroundHeight)
    ensures Resizable(canvasWidth, canvasHeight, jumpsRemaining, score, gameSpeed, oldObstacles, oldClouds) ==>
      Fitted(canvasWidth, canvasHeight, canvasHeight as real - GroundHeight, canvasWidth, canvasHeight,
                   jumpsRemaining, score, gameSpeed, obstacles, clouds)
  {
    if !Resizable(canvasWidth, canvasHeight, jumpsRemaining, score, gameSpeed, oldObstacles, oldClouds) {
      return;
    }
    assert Spaced(obstacles) by {
      forall a, b | 0 <= a < b < |obstacles| ensures obstacles[b].x - obstacles[a].x > MinGap {
        assert obstacles[a].x == oldObstacles[a].x && obstacles[b].x == oldObstacles[b].x;
      }
    }
    forall k | 0 <= k < |clouds| ensures CloudOk(clouds[k], canvasHeight) {
      assert draws[k] in draws;
    }
  }

  /** What `init` leaves: no obstacles, the first `m` new clouds, score 0 at the
      initial speed and a full jump count. */
  lemma {:induction false} RestartIsFitted(canvasWidth: int, canvasHeight: int, draws: seq<CloudDraw>, m: nat)
    requires 0 <= canvasWidth && 0 <= canvasHeight
    requires m <= |draws| && AllValid(draws)
    ensures Fitted(canvasWidth, canvasHeight, canvasHeight as real - GroundHeight, canvasWidth, canvasHeight,
                   MaxJumps, 0, InitialSpeed, [], Fresh(canvasWidth, canvasHeight, draws, m))
  {
    var clouds := Fresh(canvasWidth, canvasHeight, draws, m);
    forall k | 0 <= k < m ensures CloudOk(clouds[k], canvasHeight) {
      assert draws[k] in draws;
      NewCloudStays(canvasWidth, canvasHeight, draws[k]);
    }
  }
}
