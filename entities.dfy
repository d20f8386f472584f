/** The plain records of the runner game (obstacles, clouds) and the two
    factories that create them from random draws.

    Every `Math.random()` result is an explicit parameter in [0, 1). */
module Entities {

  /** A value `Math.random()` can return. */
  predicate Unit(r: real) {
    0.0 <= r < 1.0
  }

  /** Thickness of the ground band (`ground.height`). */
  const GroundHeight: real := 20.0

  /** Width of every obstacle. */
  const ObstacleWidth: real := 30.0

  /** An obstacle rectangle; its colour is constant and not modelled. */
  datatype Obstacle = Obstacle(x: real, y: real, width: real, height: real)

  /** A cloud: position, size and its own horizontal speed (colour not modelled). */
  datatype Cloud = Cloud(x: real, y: real, width: real, height: real, speed: real)

  /** The five draws `createCloud` takes, in the order it takes them. */
  datatype CloudDraw = CloudDraw(rx: real, ry: real, rw: real, rh: real, rs: real) {
    predicate Valid() {
      Unit(rx) && Unit(ry) && Unit(rw) && Unit(rh) && Unit(rs)
    }
  }

  predicate AllValid(ds: seq<CloudDraw>) {
    forall d | d in ds :: d.Valid()
  }

  /** The cloud `createCloud` pushes: somewhere in the 500 pixels right of the
      canvas, in its upper half, 60 to 140 wide, drifting 0.5 to 1 pixels per tick. */
  function NewCloud(canvasWidth: int, canvasHeight: int, d: CloudDraw): (c: Cloud)
    requires d.Valid()
    ensures canvasWidth as real <= c.x < canvasWidth as real + 500.0
    ensures canvasHeight >= 0 ==> 0.0 <= c.y <= canvasHeight as real * 0.5
    ensures canvasHeight > 0 ==> c.y < canvasHeight as real * 0.5
    ensures 60.0 <= c.width < 140.0 && 40.0 <= c.height < 80.0
    ensures 0.5 <= c.speed < 1.0
  {
    var half := canvasHeight as real * 0.5;
    assert canvasHeight >= 0 ==> d.ry * half <= half;
    assert canvasHeight > 0 ==> d.ry * half < half;
    Cloud(canvasWidth as real + d.rx * 500.0,
          d.ry * half,
          60.0 + d.rw * 80.0,
          40.0 + d.rh * 40.0,
          0.5 + d.rs * 0.5)
  }

  /** The obstacle `generateObstacle` pushes: at the right edge of the canvas,
      30 wide, 40 to 100 high, standing on the ground line. */
  function NewObstacle(canvasWidth: int, groundY: real, rHeight: real): (o: Obstacle)
    requires Unit(rHeight)
    ensures o.x == canvasWidth as real
    ensures o.width == ObstacleWidth
    ensures 40.0 <= o.height < 100.0
    ensures o.y + o.height == groundY
  {
    var h := 40.0 + rHeight * 60.0;
    Obstacle(canvasWidth as real, groundY - h, ObstacleWidth, h)
  }
}
