/** Collision detection (`checkCollision`): axis-aligned rectangle overlap
    with strict inequalities, so rectangles that only share an edge do not
    collide. */
module Collision {
  import opened Entities

  datatype Rect = Rect(x: real, y: real, width: real, height: real)

  function Box(o: Obstacle): Rect {
    Rect(o.x, o.y, o.width, o.height)
  }

  /** The four strict inequalities of `checkCollision`, player first. */
  predicate Overlaps(a: Rect, b: Rect) {
    a.x < b.x + b.width &&
    a.x + a.width > b.x &&
    a.y < b.y + b.height &&
    a.y + a.height > b.y
  }

  /** Some obstacle overlaps the player. */
  predicate Collides(player: Rect, obstacles: seq<Obstacle>) {
    exists k :: 0 <= k < |obstacles| && Overlaps(player, Box(obstacles[k]))
  }

  /** `checkCollision`: scans the obstacles in order and stops at the first that
      overlaps the player. */
  method CheckCollision(player: Rect, obstacles: seq<Obstacle>) returns (hit: bool)
    ensures hit <==> Collides(player, obstacles)
  {
    var i := 0;
    while i < |obstacles|
      invariant 0 <= i <= |obstacles|
      invariant forall k :: 0 <= k < i ==> !Overlaps(player, Box(obstacles[k]))
    {
      var o := obstacles[i];
      if player.x < o.x + o.width &&
         player.x + player.width > o.x &&
         player.y < o.y + o.height &&
         player.y + player.height > o.y
      {
        assert Overlaps(player, Box(obstacles[i]));
        return true;
      }
      i := i + 1;
    }
    return false;
  }

  /** The overlap test does not depend on which rectangle is the player. */
  lemma OverlapsSymmetric(a: Rect, b: Rect)
    ensures Overlaps(a, b) <==> Overlaps(b, a)
  {
  }

  /** Rectangles that only touch along an edge do not collide. */
  lemma EdgeContactIsNoCollision(a: Rect, b: Rect)
    requires a.x + a.width == b.x || b.x + b.width == a.x
          || a.y + a.height == b.y || b.y + b.height == a.y
    ensures !Overlaps(a, b)
  {
  }

  /** Two 10 by 10 squares offset by (5, 5) overlap; offset by 20 or by exactly
      their width, they do not. */
  lemma OverlapExamples()
    ensures Overlaps(Rect(0.0, 0.0, 10.0, 10.0), Rect(5.0, 5.0, 10.0, 10.0))
    ensures !Overlaps(Rect(0.0, 0.0, 10.0, 10.0), Rect(20.0, 0.0, 10.0, 10.0))
    ensures !Overlaps(Rect(0.0, 0.0, 10.0, 10.0), Rect(10.0, 0.0, 10.0, 10.0))
  {
  }
}
