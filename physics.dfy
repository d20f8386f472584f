/** Player physics: gravity and the ground clamp of `updatePlayer`, and the
    jump that the key and touch handlers perform, as functions on a snapshot
    of the player's mutable fields. */
module Physics {
  import opened Entities

  const Gravity: real := 0.4
  const JumpForce: real := -15.0
  const MaxJumps: int := 4
  const PlayerWidth: real := 50.0
  const PlayerHeight: real := 50.0
  /** The x every reset and resize puts the player at. */
  const PlayerStartX: real := 100.0

  /** The fields of the player object that gameplay reads or writes
      (the sprite animation counters are cosmetic and left out). */
  datatype PlayerState = PlayerState(x: real, y: real, velocityY: real, jumping: bool, jumpsRemaining: int)

  /** The lowest y the player may have: standing on the ground band. */
  function GroundLine(canvasHeight: real): real {
    canvasHeight - PlayerHeight - GroundHeight
  }

  /** Whether one tick of gravity would take the player below the ground line. */
  predicate Lands(p: PlayerState, canvasHeight: real) {
    p.y + (p.velocityY + Gravity) > GroundLine(canvasHeight)
  }

  /** `updatePlayer`: gravity, then the ground clamp. The player never ends below
      the ground line; landing stops the player and is what refills the jumps;
      in the air the jump count is untouched. */
  function Fall(p: PlayerState, canvasHeight: real): (r: PlayerState)
    ensures r.x == p.x
    ensures r.y <= GroundLine(canvasHeight)
    ensures Lands(p, canvasHeight) ==>
      r.y == GroundLine(canvasHeight) && r.velocityY == 0.0 && !r.jumping && r.jumpsRemaining == MaxJumps
    ensures !Lands(p, canvasHeight) ==>
      r.velocityY == p.velocityY + Gravity && r.y == p.y + r.velocityY
      && r.jumping == p.jumping && r.jumpsRemaining == p.jumpsRemaining
  {
    var v := p.velocityY + Gravity;
    var y := p.y + v;
    if y > GroundLine(canvasHeight) then
      PlayerState(p.x, GroundLine(canvasHeight), 0.0, false, MaxJumps)
    else
      p.(velocityY := v, y := y)
  }

  /** The jump branch of the input handlers: allowed only while a jump remains,
      and then it consumes exactly one; the position is not touched. */
  function Jumped(p: PlayerState): (r: PlayerState)
    ensures p.jumpsRemaining <= 0 ==> r == p
    ensures p.jumpsRemaining > 0 ==>
      r.jumping && r.velocityY == JumpForce && r.jumpsRemaining == p.jumpsRemaining - 1
      && r.x == p.x && r.y == p.y
  {
    if p.jumpsRemaining > 0 then
      p.(jumping := true, velocityY := JumpForce, jumpsRemaining := p.jumpsRemaining - 1)
    else
      p
  }

  /** A touchstart while running with `touches` active touch points: at most one
      jump, however many touches there are, and none without a touch. */
  function TouchJumped(p: PlayerState, touches: nat): (r: PlayerState)
    ensures touches == 0 ==> r == p
    ensures touches > 0 ==> r == Jumped(p)
    ensures r.jumpsRemaining >= p.jumpsRemaining - 1
  {
    if touches > 0 then Jumped(p) else p
  }

  /** Where `init` and a resize put the player: 10 pixels below the ground line. */
  function SpawnPoint(canvasHeight: real): PlayerState {
    PlayerState(PlayerStartX, canvasHeight - 60.0, 0.0, false, MaxJumps)
  }

  /** The first tick after `init` lifts the player from its spawn point, 10 pixels
      inside the ground, onto the ground line, and stops it there. */
  lemma SpawnPointSnapsToGround(canvasHeight: real)
    ensures SpawnPoint(canvasHeight).y == GroundLine(canvasHeight) + 10.0
    ensures Fall(SpawnPoint(canvasHeight), canvasHeight)
         == PlayerState(PlayerStartX, GroundLine(canvasHeight), 0.0, false, MaxJumps)
  {
  }

  // ---------------------------------------------------------------------------
  // Sequences of ticks and jump commands

  datatype Event = Frame | Jump

  function Step(p: PlayerState, e: Event, canvasHeight: real): PlayerState {
    match e
    case Frame => Fall(p, canvasHeight)
    case Jump => Jumped(p)
  }

  function Replay(p: PlayerState, events: seq<Event>, canvasHeight: real): PlayerState
    decreases |events|
  {
    if events == [] then p else Replay(Step(p, events[0], canvasHeight), events[1..], canvasHeight)
  }

  /** No tick among `events` lands the player. */
  predicate Airborne(p: PlayerState, events: seq<Event>, canvasHeight: real)
    decreases |events|
  {
    events == [] ||
    ((events[0] == Frame ==> !Lands(p, canvasHeight))
     && Airborne(Step(p, events[0], canvasHeight), events[1..], canvasHeight))
  }

  function JumpCommands(events: seq<Event>): nat {
    if events == [] then 0 else (if events[0] == Jump then 1 else 0) + JumpCommands(events[1..])
  }

  function Max(a: int, b: int): int {
    if a >= b then a else b
  }

  /** Without touching the ground, every jump command uses up one jump until none
      is left: no more than the jumps remaining at take-off can be chained. */
  lemma {:induction false} JumpBudget(p: PlayerState, events: seq<Event>, canvasHeight: real)
    requires p.jumpsRemaining >= 0
    requires Airborne(p, events, canvasHeight)
    ensures Replay(p, events, canvasHeight).jumpsRemaining == Max(0, p.jumpsRemaining - JumpCommands(events))
    decreases |events|
  {
    if events != [] {
      JumpBudget(Step(p, events[0], canvasHeight), events[1..], canvasHeight);
    }
  }

  /** For any sequence of ticks and jump commands, the jump count stays between
      0 and 4, and after any tick the player is on or above the ground line. */
  lemma {:induction false} JumpCountBounded(p: PlayerState, events: seq<Event>, canvasHeight: real)
    requires 0 <= p.jumpsRemaining <= MaxJumps
    ensures 0 <= Replay(p, events, canvasHeight).jumpsRemaining <= MaxJumps
    ensures events != [] && events[|events| - 1] == Frame ==>
      Replay(p, events, canvasHeight).y <= GroundLine(canvasHeight)
    decreases |events|
  {
    if events != [] {
      var q := Step(p, events[0], canvasHeight);
      JumpCountBounded(q, events[1..], canvasHeight);
      if |events| > 1 {
        assert events[1..][|events[1..]| - 1] == events[|events| - 1];
      }
    }
  }
}
