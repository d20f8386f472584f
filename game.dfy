/** The game state machine: the process-wide simulation state of the runner
    game as one `World` object, and one method per function of the game that
    changes it. Random draws, the host window and the pressed key are
    parameters; drawing and the DOM readouts are not modelled. */
module Game {
  import opened Entities
  import opened Viewport
  import opened Physics
  import opened Collision
  import opened Spawner
  import opened Scoring
  import opened Invariants

  /** The player object: the fields gameplay reads and writes. */
  class Player {
    var x: real
    var y: real
    var velocityY: real
    var jumping: bool
    var jumpsRemaining: int

    constructor (x: real, y: real)
      ensures State() == PlayerState(x, y, 0.0, false, MaxJumps)
    {
      this.x := x;
      this.y := y;
      velocityY := 0.0;
      jumping := false;
      jumpsRemaining := MaxJumps;
    }

    function State(): PlayerState
      reads this
    {
      PlayerState(x, y, velocityY, jumping, jumpsRemaining)
    }
  }

  function PlayerRect(p: PlayerState): Rect {
    Rect(p.x, p.y, PlayerWidth, PlayerHeight)
  }

  /** The loop of `updateObstacles`: each obstacle in turn moves left by `speed`;
      one now wholly off-screen is spliced out and the index steps back. */
  method ScrollObstacles(obstacles: seq<Obstacle>, speed: real) returns (r: seq<Obstacle>)
    ensures r == Advance(obstacles, speed)
  {
    r := obstacles;
    ghost var visited := 0;  // how many obstacles the loop has passed
    var i := 0;
    while i < |r|
      invariant 0 <= visited <= |obstacles|
      invariant i == |Advance(obstacles[..visited], speed)|
      invariant r == Advance(obstacles[..visited], speed) + obstacles[visited..]
      decreases |r| - i
    {
      VisitObstacle(obstacles, visited, speed, r, i);
      r := r[i := r[i].(x := r[i].x - speed)];
      if r[i].x + r[i].width < 0.0 {
        r := r[..i] + r[i + 1..];
        i := i - 1;
      }
      i := i + 1;
      visited := visited + 1;
    }
    assert obstacles[..visited] == obstacles;
  }

  /** The loop of `updateClouds`: each cloud in turn drifts by its own speed; one
      now gone is spliced out, the index steps back, and a new cloud is pushed at
      the end, where the same loop reaches it later. */
  method DriftClouds(clouds: seq<Cloud>, canvasWidth: int, canvasHeight: int, draws: seq<CloudDraw>)
    returns (r: seq<Cloud>)
    requires canvasWidth >= 0
    requires |draws| >= |clouds| && AllValid(draws)
    ensures r == CloudPass(clouds, canvasWidth, canvasHeight, draws)
  {
    r := clouds;
    ghost var visited := 0;  // how many of the old clouds the loop has passed
    var created := 0;
    var i := 0;
    PassStart(clouds, canvasWidth, canvasHeight, draws);
    while i < |r|
      invariant MidPass(clouds, canvasWidth, canvasHeight, draws, visited, created, i, r)
      decreases 2 * |clouds| - i - visited
    {
      PassReplaces(clouds, canvasWidth, canvasHeight, draws, visited, created, i, r);
      ghost var (v0, created0, i0, r0) := (visited, created, i, r);
      r := r[i := r[i].(x := r[i].x - r[i].speed)];
      if r[i].x + r[i].width < 0.0 {
        r := r[..i] + r[i + 1..];
        i := i - 1;
        r := r + [NewCloud(canvasWidth, canvasHeight, draws[created])];
        created := created + 1;
      }
      i := i + 1;
      if visited < |clouds| {
        visited := visited + 1;
      }
      PassStep(clouds, canvasWidth, canvasHeight, draws, v0, created0, i0, r0, visited, created, i, r);
    }
    PassEnd(clouds, canvasWidth, canvasHeight, draws, visited, created, i, r);
  }

  class World {
    var canvasWidth: int
    var canvasHeight: int
    var groundY: real
    var backgroundWidth: int
    var backgroundHeight: int
    const player: Player
    var obstacles: seq<Obstacle>
    var clouds: seq<Cloud>
    var score: int
    var gameSpeed: real
    var gameRunning: bool

    // Both invariants compare the predicate over the fields with `true`, so that
    // the verifier checks each as one fact instead of conjunct by conjunct.

    /** What holds between events, whatever the canvas size. */
    ghost predicate Resizable()
      reads this, player
    {
      Invariants.Resizable(canvasWidth, canvasHeight, player.jumpsRemaining, score, gameSpeed,
                           obstacles, clouds) == true
    }

    /** ... and, after `setCanvasSize`, everything fits the canvas. */
    ghost predicate Valid()
      reads this, player
    {
      Fitted(canvasWidth, canvasHeight, groundY, backgroundWidth, backgroundHeight,
             player.jumpsRemaining, score, gameSpeed, obstacles, clouds) == true
    }

    /** What `init` leaves behind. */
    ghost predicate Restarted(host: Host, cloudDraws: seq<CloudDraw>)
      requires |cloudDraws| >= InitialClouds && AllValid(cloudDraws)
      reads this, player
    {
      Size(canvasWidth, canvasHeight) == CanvasSize(host)
      && score == 0 && gameSpeed == InitialSpeed && gameRunning
      && obstacles == []
      && clouds == Fresh(canvasWidth, canvasHeight, cloudDraws, InitialClouds)
      && player.State() == SpawnPoint(canvasHeight as real)
    }

    /** The globals as the script sets them up when it loads, followed by its
        first `setCanvasSize()` (no clouds or obstacles exist yet). */
    constructor (host: Host)
      ensures Valid() && fresh(player)
      ensures Size(canvasWidth, canvasHeight) == CanvasSize(host)
      ensures score == 0 && gameSpeed == InitialSpeed && !gameRunning
      ensures obstacles == [] && clouds == []
      ensures player.State() == SpawnPoint(canvasHeight as real)
    {
      score := 0;
      gameRunning := false;
      gameSpeed := InitialSpeed;
      // the canvas element's own size before the first resize is replaced below
      canvasWidth, canvasHeight := 0, 0;
      player := new Player(PlayerStartX, 0.0 - 60.0);
      obstacles := [];
      groundY := 0.0 - GroundHeight;
      backgroundWidth, backgroundHeight := 0, 0;
      clouds := [];
      new;
      SetCanvasSize(host, []);
    }

    /** `setCanvasSize`: the canvas takes the size computed from the window, then
        everything that depends on it is moved. */
    method SetCanvasSize(host: Host, draws: seq<Reloc>)
      requires Resizable()
      requires |draws| >= |clouds| && forall d | d in draws :: d.Valid()
      modifies this, player
      ensures Valid()
      ensures Size(canvasWidth, canvasHeight) == CanvasSize(host)
      ensures player.State() == old(player.State()).(x := PlayerStartX, y := canvasHeight as real - 60.0)
      ensures |clouds| == |old(clouds)|
      ensures forall k :: 0 <= k < |clouds| ==>
        clouds[k] == Relocate(old(clouds)[k], Size(canvasWidth, canvasHeight), draws[k])
      ensures |obstacles| == |old(obstacles)|
      ensures forall k :: 0 <= k < |obstacles| ==> obstacles[k] == Reground(old(obstacles)[k], groundY)
      ensures score == old(score) && gameSpeed == old(gameSpeed) && gameRunning == old(gameRunning)
    {
      var size := CanvasSize(host);
      canvasWidth := size.width;
      canvasHeight := size.height;
      UpdateGamePositions(draws);
    }

    /** `updateGamePositions`: ground, player start, background, clouds and
        obstacles are fitted to the current canvas; nothing else changes. */
    method UpdateGamePositions(draws: seq<Reloc>)
      requires Resizable()
      requires |draws| >= |clouds| && forall d | d in draws :: d.Valid()
      modifies this`groundY, this`backgroundWidth, this`backgroundHeight, this`clouds, this`obstacles
      modifies player`x, player`y
      ensures Valid()
      ensures groundY == canvasHeight as real - GroundHeight
      ensures player.State() == old(player.State()).(x := PlayerStartX, y := canvasHeight as real - 60.0)
      ensures |clouds| == |old(clouds)|
      ensures forall k :: 0 <= k < |clouds| ==>
        clouds[k] == Relocate(old(clouds)[k], Size(canvasWidth, canvasHeight), draws[k])
      ensures |obstacles| == |old(obstacles)|
      ensures forall k :: 0 <= k < |obstacles| ==> obstacles[k] == Reground(old(obstacles)[k], groundY)
    {
      assert 0 <= canvasWidth && 0 <= canvasHeight;
      groundY := canvasHeight as real - GroundHeight;
      player.x := PlayerStartX;
      player.y := canvasHeight as real - 60.0;
      backgroundWidth := canvasWidth;
      backgroundHeight := canvasHeight;

      var size := Size(canvasWidth, canvasHeight);
      var i := 0;
      while i < |clouds|
        invariant 0 <= i <= |clouds| == |old(clouds)|
        invariant forall k :: 0 <= k < i ==> clouds[k] == Relocate(old(clouds)[k], size, draws[k])
        invariant forall k :: i <= k < |clouds| ==> clouds[k] == old(clouds)[k]
        modifies this`clouds
      {
        assert draws[i] in draws;
        clouds := clouds[i := Relocate(clouds[i], size, draws[i])];
        i := i + 1;
      }

      var j := 0;
      while j < |obstacles|
        invariant 0 <= j <= |obstacles| == |old(obstacles)|
        invariant forall k :: 0 <= k < j ==> obstacles[k] == Reground(old(obstacles)[k], groundY)
        invariant forall k :: j <= k < |obstacles| ==> obstacles[k] == old(obstacles)[k]
        modifies this`obstacles
      {
        obstacles := obstacles[j := Reground(obstacles[j], groundY)];
        j := j + 1;
      }
      RefitIsFitted(canvasWidth, canvasHeight, player.jumpsRemaining, score, gameSpeed,
                    old(obstacles), old(clouds), obstacles, clouds, draws);
    }

    /** `init`: refit the canvas, then clear the score, speed, obstacles and clouds,
        put the player back at its start, run, and create five clouds. */
    method Init(host: Host, relocDraws: seq<Reloc>, cloudDraws: seq<CloudDraw>)
      requires Valid()
      requires |relocDraws| >= |clouds| && forall d | d in relocDraws :: d.Valid()
      requires |cloudDraws| >= InitialClouds && AllValid(cloudDraws)
      modifies this, player
      ensures Valid()
      ensures Restarted(host, cloudDraws)
    {
      SetCanvasSize(host, relocDraws);
      score := 0;
      gameSpeed := InitialSpeed;
      obstacles := [];
      clouds := [];
      player.x := PlayerStartX;
      player.y := canvasHeight as real - 60.0;
      player.velocityY := 0.0;
      player.jumping := false;
      player.jumpsRemaining := MaxJumps;
      gameRunning := true;

      var i := 0;
      while i < InitialClouds
        invariant 0 <= i <= InitialClouds
        invariant clouds == Fresh(canvasWidth, canvasHeight, cloudDraws, i)
        modifies this`clouds
      {
        FreshSnoc(canvasWidth, canvasHeight, cloudDraws, i);
        CreateCloud(cloudDraws[i]);
        i := i + 1;
      }
      RestartIsFitted(canvasWidth, canvasHeight, cloudDraws, InitialClouds);
    }

    /** `createCloud`: push one new cloud. */
    method CreateCloud(d: CloudDraw)
      requires d.Valid()
      modifies this`clouds
      ensures clouds == old(clouds) + [NewCloud(canvasWidth, canvasHeight, d)]
    {
      clouds := clouds + [NewCloud(canvasWidth, canvasHeight, d)];
    }

    /** `updateClouds`, on the world's cloud list. */
    method UpdateClouds(draws: seq<CloudDraw>)
      requires Valid()
      requires |draws| >= |clouds| && AllValid(draws)
      modifies this`clouds
      ensures Valid()
      ensures clouds == CloudPass(old(clouds), canvasWidth, canvasHeight, draws)
    {
      clouds := DriftClouds(clouds, canvasWidth, canvasHeight, draws);
      CloudTickKeepsFitted(canvasWidth, canvasHeight, groundY, backgroundWidth, backgroundHeight,
                           player.jumpsRemaining, score, gameSpeed, obstacles, old(clouds), draws);
    }

    /** `updatePlayer`: gravity, then the ground clamp. */
    method UpdatePlayer()
      requires Valid()
      modifies player
      ensures Valid()
      ensures player.State() == Fall(old(player.State()), canvasHeight as real)
    {
      player.velocityY := player.velocityY + Gravity;
      player.y := player.y + player.velocityY;
      if player.y > canvasHeight as real - PlayerHeight - GroundHeight {
        player.y := canvasHeight as real - PlayerHeight - GroundHeight;
        player.velocityY := 0.0;
        player.jumping := false;
        player.jumpsRemaining := MaxJumps;
      }
    }

    /** `generateObstacle`: push one new obstacle at the right edge. */
    method GenerateObstacle(rHeight: real)
      requires Unit(rHeight)
      modifies this`obstacles
      ensures obstacles == old(obstacles) + [NewObstacle(canvasWidth, groundY, rHeight)]
    {
      obstacles := obstacles + [NewObstacle(canvasWidth, groundY, rHeight)];
    }

    /** `updateObstacles`: maybe spawn one obstacle at the right edge, then move
        and drop (`ScrollObstacles`). */
    method UpdateObstacles(rSpawn: real, rHeight: real)
      requires Valid()
      requires Unit(rHeight)
      modifies this`obstacles
      ensures Valid()
      ensures obstacles == Advance(Spawn(old(obstacles), canvasWidth, groundY, rSpawn, rHeight), gameSpeed)
    {
      if rSpawn < SpawnChance &&
         (|obstacles| == 0 || canvasWidth as real - obstacles[|obstacles| - 1].x > MinGap)
      {
        GenerateObstacle(rHeight);
      }
      ObstacleTickKeepsFitted(canvasWidth, canvasHeight, groundY, backgroundWidth, backgroundHeight,
                              player.jumpsRemaining, score, gameSpeed, old(obstacles), clouds, rSpawn, rHeight);
      obstacles := ScrollObstacles(obstacles, gameSpeed);
    }

    /** `updateScore`: one more point, and 0.5 more speed at every thousandth. */
    method UpdateScore()
      requires Valid()
      modifies this`score, this`gameSpeed
      ensures Valid()
      ensures score == old(score) + 1
      ensures gameSpeed == NextSpeed(score, old(gameSpeed))
    {
      score := score + 1;
      if score % RampInterval == 0 {
        gameSpeed := gameSpeed + SpeedIncrement;
      }
    }

    /** `endGame`: stop running; the final score shown is a tenth of the raw score. */
    method EndGame() returns (finalScore: int)
      requires Valid()
      modifies this`gameRunning
      ensures Valid()
      ensures !gameRunning && finalScore == DisplayedScore(score)
    {
      gameRunning := false;
      finalScore := score / 10;
    }

    /** `gameLoop`: one tick. Nothing happens unless the game runs; otherwise clouds,
        player and obstacles are updated in that order, and a collision ends the
        game before the score is counted. */
    method GameLoop(rSpawn: real, rHeight: real, cloudDraws: seq<CloudDraw>)
      requires Valid()
      requires Unit(rSpawn) && Unit(rHeight)
      requires |cloudDraws| >= |clouds| && AllValid(cloudDraws)
      modifies this, player
      ensures Valid()
      ensures !old(gameRunning) ==> unchanged(this) && unchanged(player)
      ensures canvasWidth == old(canvasWidth) && canvasHeight == old(canvasHeight) && groundY == old(groundY)
      ensures old(gameRunning) ==>
        clouds == CloudPass(old(clouds), canvasWidth, canvasHeight, cloudDraws)
        && player.State() == Fall(old(player.State()), canvasHeight as real)
        && obstacles == Advance(Spawn(old(obstacles), canvasWidth, groundY, rSpawn, rHeight), old(gameSpeed))
      ensures old(gameRunning) && Collides(PlayerRect(player.State()), obstacles) ==>
        !gameRunning && score == old(score) && gameSpeed == old(gameSpeed)
      ensures old(gameRunning) && !Collides(PlayerRect(player.State()), obstacles) ==>
        gameRunning && score == old(score) + 1 && gameSpeed == NextSpeed(score, old(gameSpeed))
    {
      if !gameRunning {
        return;
      }
      UpdateClouds(cloudDraws);
      UpdatePlayer();
      UpdateObstacles(rSpawn, rHeight);
      var hit := CheckCollision(PlayerRect(player.State()), obstacles);
      if hit {
        var finalScore := EndGame();
        return;
      }
      UpdateScore();
    }

    /** `handleKeyDown`: Space restarts a game that is not running, and otherwise
        jumps if a jump remains; any other key does nothing. */
    method KeyDown(isSpace: bool, host: Host, relocDraws: seq<Reloc>, cloudDraws: seq<CloudDraw>)
      requires Valid()
      requires |relocDraws| >= |clouds| && forall d | d in relocDraws :: d.Valid()
      requires |cloudDraws| >= InitialClouds && AllValid(cloudDraws)
      modifies this, player
      ensures Valid()
      ensures !isSpace ==> unchanged(this) && unchanged(player)
      ensures isSpace && !old(gameRunning) ==> Restarted(host, cloudDraws)
      ensures isSpace && old(gameRunning) ==>
        unchanged(this) && player.State() == Jumped(old(player.State()))
    {
      if isSpace {
        if !gameRunning {
          Init(host, relocDraws, cloudDraws);
        } else if player.jumpsRemaining > 0 {
          player.jumping := true;
          player.velocityY := JumpForce;
          player.jumpsRemaining := player.jumpsRemaining - 1;
        }
      }
    }

    /** `handleTouchStart`: a touch restarts a game that is not running; while
        running, the touch points are tried in turn and the first that finds a
        jump remaining uses it, so one event jumps at most once. */
    method TouchStart(touches: nat, host: Host, relocDraws: seq<Reloc>, cloudDraws: seq<CloudDraw>)
      requires Valid()
      requires |relocDraws| >= |clouds| && forall d | d in relocDraws :: d.Valid()
      requires |cloudDraws| >= InitialClouds && AllValid(cloudDraws)
      modifies this, player
      ensures Valid()
      ensures !old(gameRunning) ==> Restarted(host, cloudDraws)
      ensures old(gameRunning) ==>
        unchanged(this) && player.State() == TouchJumped(old(player.State()), touches)
    {
      if !gameRunning {
        Init(host, relocDraws, cloudDraws);
        return;
      }
      var t := 0;
      while t < touches
        invariant 0 <= t <= touches
        invariant player.State() == old(player.State())
        invariant t > 0 ==> player.jumpsRemaining <= 0
        modifies player
      {
        if player.jumpsRemaining > 0 {
          player.jumping := true;
          player.velocityY := JumpForce;
          player.jumpsRemaining := player.jumpsRemaining - 1;
          break;
        }
        t := t + 1;
      }
    }
  }
}
