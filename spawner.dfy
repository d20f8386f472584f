/** What one tick does to the obstacle and cloud lists, as functions of the
    old lists: the obstacle spawn guard and `updateObstacles`'s scroll-and-drop
    loop, and `updateClouds`'s drift-and-replace loop, with the step lemmas the
    loops (`Game.ScrollObstacles`, `Game.DriftClouds`) are proved with. */
module Spawner {
  import opened Entities

  // ---------------------------------------------------------------------------
  // Obstacles

  const SpawnChance: real := 0.01
  /** Horizontal gap the last obstacle must leave before another is spawned. */
  const MinGap: real := 300.0

  /** The guard of `updateObstacles`: the draw falls under 1% and the list is empty
      or its last (most recently created) obstacle is more than 300 pixels in from
      the right edge. */
  predicate SpawnAllowed(obstacles: seq<Obstacle>, canvasWidth: int, rSpawn: real) {
    rSpawn < SpawnChance &&
    (|obstacles| == 0 || canvasWidth as real - obstacles[|obstacles| - 1].x > MinGap)
  }

  /** The list after the spawn step: one new obstacle at the end when allowed. */
  function Spawn(obstacles: seq<Obstacle>, canvasWidth: int, groundY: real, rSpawn: real, rHeight: real)
    : (r: seq<Obstacle>)
    requires Unit(rHeight)
    ensures SpawnAllowed(obstacles, canvasWidth, rSpawn) ==>
      r == obstacles + [NewObstacle(canvasWidth, groundY, rHeight)]
    ensures !SpawnAllowed(obstacles, canvasWidth, rSpawn) ==> r == obstacles
  {
    if SpawnAllowed(obstacles, canvasWidth, rSpawn) then
      obstacles + [NewObstacle(canvasWidth, groundY, rHeight)]
    else
      obstacles
  }

  function Shift(o: Obstacle, speed: real): Obstacle {
    o.(x := o.x - speed)
  }

  /** Not yet fully past the left edge (the negation of the removal test). */
  predicate OnScreen(o: Obstacle) {
    o.x + o.width >= 0.0
  }

  /** The obstacle loop of `updateObstacles`: every obstacle moves left by `speed`,
      and those now wholly off-screen are dropped. */
  function Advance(obstacles: seq<Obstacle>, speed: real): (r: seq<Obstacle>)
    ensures |r| <= |obstacles|
    ensures forall k :: 0 <= k < |r| ==> OnScreen(r[k])
    decreases |obstacles|
  {
    if obstacles == [] then []
    else
      var rest := Advance(obstacles[..|obstacles| - 1], speed);
      var moved := Shift(obstacles[|obstacles| - 1], speed);
      if OnScreen(moved) then rest + [moved] else rest
  }

  /** One iteration of the loop of `updateObstacles` at index `i`, when the first
      `v` obstacles have been visited: the obstacle there is moved, and spliced out
      if off-screen. */
  lemma VisitObstacle(spawned: seq<Obstacle>, v: nat, speed: real, obstacles: seq<Obstacle>, i: nat)
    requires v < |spawned| && i == |Advance(spawned[..v], speed)|
    requires obstacles == Advance(spawned[..v], speed) + spawned[v..]
    ensures i < |obstacles|
    ensures var moved := obstacles[i := obstacles[i].(x := obstacles[i].x - speed)];
      var done := Advance(spawned[..v + 1], speed);
      (!OnScreen(moved[i]) ==> moved[..i] + moved[i + 1..] == done + spawned[v + 1..] && |done| == i)
      && (OnScreen(moved[i]) ==> moved == done + spawned[v + 1..] && |done| == i + 1)
  {
    assert spawned[..v + 1][..v] == spawned[..v];
    var moved := obstacles[i := obstacles[i].(x := obstacles[i].x - speed)];
    assert obstacles[i] == spawned[v];
    assert moved == Advance(spawned[..v], speed) + [Shift(spawned[v], speed)] + spawned[v + 1..];
  }

  /** The positions in the old list of the obstacles `Advance` keeps. */
  ghost function Kept(obstacles: seq<Obstacle>, speed: real): seq<int>
    decreases |obstacles|
  {
    if obstacles == [] then []
    else
      var rest := Kept(obstacles[..|obstacles| - 1], speed);
      if OnScreen(Shift(obstacles[|obstacles| - 1], speed)) then rest + [|obstacles| - 1] else rest
  }

  /** `Advance` keeps exactly the obstacles that are still on screen once moved,
      in their old order, each moved left by exactly `speed` and otherwise the
      same. */
  lemma {:induction false} AdvanceSelects(obstacles: seq<Obstacle>, speed: real)
    ensures |Kept(obstacles, speed)| == |Advance(obstacles, speed)|
    ensures forall k :: 0 <= k < |Kept(obstacles, speed)| ==>
      0 <= Kept(obstacles, speed)[k] < |obstacles|
      && Advance(obstacles, speed)[k] == Shift(obstacles[Kept(obstacles, speed)[k]], speed)
    ensures forall k1, k2 :: 0 <= k1 < k2 < |Kept(obstacles, speed)| ==>
      Kept(obstacles, speed)[k1] < Kept(obstacles, speed)[k2]
    ensures forall j :: 0 <= j < |obstacles| ==>
      (j in Kept(obstacles, speed) <==> OnScreen(Shift(obstacles[j], speed)))
    decreases |obstacles|
  {
    if obstacles != [] {
      var n := |obstacles| - 1;
      var front := obstacles[..n];
      AdvanceSelects(front, speed);
      var idx := Kept(front, speed);
      assert forall k :: 0 <= k < |idx| ==> idx[k] < n;
      assert forall j :: 0 <= j < n ==> obstacles[j] == front[j];
    }
  }

  /** Any two obstacles in the list lie more than 300 pixels apart, in order of creation. */
  predicate Spaced(obstacles: seq<Obstacle>) {
    forall i, j :: 0 <= i < j < |obstacles| ==> obstacles[j].x - obstacles[i].x > MinGap
  }

  lemma {:induction false} SpawnKeepsSpacing(obstacles: seq<Obstacle>, canvasWidth: int, groundY: real,
                                              rSpawn: real, rHeight: real)
    requires Unit(rHeight)
    requires Spaced(obstacles)
    ensures Spaced(Spawn(obstacles, canvasWidth, groundY, rSpawn, rHeight))
  {
    if SpawnAllowed(obstacles, canvasWidth, rSpawn) && |obstacles| > 0 {
      var r := Spawn(obstacles, canvasWidth, groundY, rSpawn, rHeight);
      var last := |obstacles| - 1;
      forall i | 0 <= i < |obstacles|
        ensures r[|obstacles|].x - r[i].x > MinGap
      {
        if i < last {
          assert obstacles[last].x - obstacles[i].x > MinGap;
        }
      }
    }
  }

  lemma {:induction false} AdvanceKeepsSpacing(obstacles: seq<Obstacle>, speed: real)
    requires Spaced(obstacles)
    ensures Spaced(Advance(obstacles, speed))
  {
    AdvanceSelects(obstacles, speed);
    var r, idx := Advance(obstacles, speed), Kept(obstacles, speed);
    forall i, j | 0 <= i < j < |r|
      ensures r[j].x - r[i].x > MinGap
    {
      assert r[i] == Shift(obstacles[idx[i]], speed);
      assert r[j] == Shift(obstacles[idx[j]], speed);
      assert idx[i] < idx[j];
    }
  }

  /** An obstacle as `generateObstacle` makes it and the loop keeps it: 30 wide,
      40 to 100 high and not wholly off-screen. */
  predicate ObstacleShape(o: Obstacle) {
    o.width == ObstacleWidth && 40.0 <= o.height < 100.0 && OnScreen(o)
  }

  /** ... and standing on the ground line. */
  predicate ObstacleOk(o: Obstacle, groundY: real) {
    ObstacleShape(o) && o.y + o.height == groundY
  }

  predicate ObstaclesOk(obstacles: seq<Obstacle>, groundY: real) {
    forall k :: 0 <= k < |obstacles| ==> ObstacleOk(obstacles[k], groundY)
  }

  lemma {:induction false} AdvanceKeepsObstaclesOk(obstacles: seq<Obstacle>, speed: real, groundY: real)
    requires forall k :: 0 <= k < |obstacles| ==>
      obstacles[k].width == ObstacleWidth && 40.0 <= obstacles[k].height < 100.0
      && obstacles[k].y + obstacles[k].height == groundY
    ensures ObstaclesOk(Advance(obstacles, speed), groundY)
  {
    AdvanceSelects(obstacles, speed);
    var r, idx := Advance(obstacles, speed), Kept(obstacles, speed);
    forall k | 0 <= k < |r|
      ensures ObstacleOk(r[k], groundY)
    {
      assert r[k] == Shift(obstacles[idx[k]], speed);
    }
  }

  // ---------------------------------------------------------------------------
  // Clouds

  /** How many clouds `init` creates. */
  const InitialClouds: nat := 5

  function Drift(c: Cloud): Cloud {
    c.(x := c.x - c.speed)
  }

  /** The removal test of `updateClouds`: the cloud is wholly past the left edge. */
  predicate Gone(c: Cloud) {
    c.x + c.width < 0.0
  }

  /** The old clouds that stay, drifted, in their old order. */
  function Survivors(clouds: seq<Cloud>): (r: seq<Cloud>)
    ensures |r| <= |clouds|
    decreases |clouds|
  {
    if clouds == [] then []
    else
      var rest := Survivors(clouds[..|clouds| - 1]);
      var moved := Drift(clouds[|clouds| - 1]);
      if Gone(moved) then rest else rest + [moved]
  }

  /** One iteration of the loop of `updateClouds` at index `i` while it is still
      visiting the old clouds (`v` of them so far, `created` of them replaced):
      the cloud there drifts; if gone it is spliced out and a new cloud pushed. */
  lemma VisitOldCloud(orig: seq<Cloud>, v: nat, canvasWidth: int, canvasHeight: int,
                      draws: seq<CloudDraw>, created: nat, clouds: seq<Cloud>, i: nat)
    requires |draws| >= |orig| && AllValid(draws)
    requires v < |orig| && i == |Survivors(orig[..v])| && created == v - i
    requires clouds == Survivors(orig[..v]) + orig[v..] + Fresh(canvasWidth, canvasHeight, draws, created)
    ensures i < |clouds| && created < |draws| && draws[created].Valid()
    ensures var moved := clouds[i := clouds[i].(x := clouds[i].x - clouds[i].speed)];
      var done := Survivors(orig[..v + 1]);
      (Gone(moved[i]) ==>
         moved[..i] + moved[i + 1..] + [NewCloud(canvasWidth, canvasHeight, draws[created])]
           == done + orig[v + 1..] + Fresh(canvasWidth, canvasHeight, draws, created + 1)
         && |done| == i && created + 1 == v + 1 - |done|)
      && (!Gone(moved[i]) ==>
         moved == done + orig[v + 1..] + Fresh(canvasWidth, canvasHeight, draws, created)
         && |done| == i + 1 && created == v + 1 - |done|)
  {
    assert orig[..v + 1][..v] == orig[..v];
    FreshSnoc(canvasWidth, canvasHeight, draws, created);
    var tail := Fresh(canvasWidth, canvasHeight, draws, created);
    var moved := clouds[i := clouds[i].(x := clouds[i].x - clouds[i].speed)];
    assert clouds[i] == orig[v];
    assert moved == Survivors(orig[..v]) + [Drift(orig[v])] + orig[v + 1..] + tail;
    if Gone(moved[i]) {
      assert moved[..i] + moved[i + 1..] == Survivors(orig[..v]) + orig[v + 1..] + tail;
    }
  }

  /** Once every old cloud is visited, the list is the survivors followed by the
      new clouds, none of them visited yet. */
  lemma OldCloudsVisited(kept: seq<Cloud>, born: seq<Cloud>, rest: seq<Cloud>)
    requires rest == []
    ensures kept + rest + born == kept + DriftAll(born[..0]) + born[0..]
  {
    assert born[..0] == [] && born[0..] == born;
    assert DriftAll(born[..0]) == [];
  }

  /** One iteration of the loop of `updateClouds` at a cloud it created itself
      (`t` of them visited so far): the cloud drifts and stays. */
  lemma VisitNewCloud(kept: seq<Cloud>, born: seq<Cloud>, t: nat, clouds: seq<Cloud>, i: nat)
    requires t < |born| && i == |kept| + t
    requires clouds == kept + DriftAll(born[..t]) + born[t..]
    requires !Gone(Drift(born[t]))
    ensures i < |clouds|
    ensures var moved := clouds[i := clouds[i].(x := clouds[i].x - clouds[i].speed)];
      !Gone(moved[i]) && moved == kept + DriftAll(born[..t + 1]) + born[t + 1..]
  {
    assert clouds[i] == born[t];
    assert DriftAll(born[..t + 1]) == DriftAll(born[..t]) + [Drift(born[t])];
  }

  lemma FreshSnoc(canvasWidth: int, canvasHeight: int, draws: seq<CloudDraw>, m: nat)
    requires m < |draws| && AllValid(draws)
    ensures draws[m].Valid()
    ensures Fresh(canvasWidth, canvasHeight, draws, m + 1)
         == Fresh(canvasWidth, canvasHeight, draws, m) + [NewCloud(canvasWidth, canvasHeight, draws[m])]
  {
    assert draws[m] in draws;
  }

  /** The first `m` clouds created from the draws, before they drift. */
  function Fresh(canvasWidth: int, canvasHeight: int, draws: seq<CloudDraw>, m: nat): (r: seq<Cloud>)
    requires m <= |draws| && AllValid(draws)
    ensures |r| == m
  {
    seq(m, k requires 0 <= k < m => NewCloud(canvasWidth, canvasHeight, draws[k]))
  }

  /** Where the loop of `updateClouds` stands after visiting `v` of the `orig`
      clouds and reaching index `i` of the list `clouds`, having pushed `created`
      new clouds: while old clouds remain, the visited ones are replaced by their
      survivors and the new clouds wait at the end; after that, the new clouds
      before `i` have drifted once. */
  ghost predicate MidPass(orig: seq<Cloud>, canvasWidth: int, canvasHeight: int, draws: seq<CloudDraw>,
                          v: int, created: int, i: int, clouds: seq<Cloud>)
    requires |draws| >= |orig| && AllValid(draws)
  {
    0 <= v <= |orig| && |clouds| == |orig|
    && created == v - |Survivors(orig[..v])|
    && (v < |orig| ==> VisitingOld(orig, canvasWidth, canvasHeight, draws, v, created, i, clouds))
    && (v == |orig| ==> VisitingNew(orig, canvasWidth, canvasHeight, draws, v, created, i, clouds))
  }

  /** While old clouds remain: the visited ones are replaced by their survivors,
      `i` points at the first old cloud not yet visited, and the new clouds wait
      at the end. */
  ghost predicate VisitingOld(orig: seq<Cloud>, canvasWidth: int, canvasHeight: int, draws: seq<CloudDraw>,
                              v: int, created: int, i: int, clouds: seq<Cloud>)
    requires |draws| >= |orig| && AllValid(draws)
    requires 0 <= v <= |orig| && created == v - |Survivors(orig[..v])|
  {
    i == |Survivors(orig[..v])|
    && clouds == Survivors(orig[..v]) + orig[v..] + Fresh(canvasWidth, canvasHeight, draws, created)
  }

  /** Once every old cloud is visited: the new clouds before `i` have drifted once. */
  ghost predicate VisitingNew(orig: seq<Cloud>, canvasWidth: int, canvasHeight: int, draws: seq<CloudDraw>,
                              v: int, created: int, i: int, clouds: seq<Cloud>)
    requires |draws| >= |orig| && AllValid(draws)
    requires v == |orig| && created == v - |Survivors(orig[..v])|
  {
    var kept, born := Survivors(orig[..v]), Fresh(canvasWidth, canvasHeight, draws, created);
    |kept| <= i <= |orig|
    && clouds == kept + DriftAll(born[..i - |kept|]) + born[i - |kept|..]
  }

  /** The loop of `updateClouds` starts at the front of the old list. */
  lemma PassStart(orig: seq<Cloud>, canvasWidth: int, canvasHeight: int, draws: seq<CloudDraw>)
    requires |draws| >= |orig| && AllValid(draws)
    ensures MidPass(orig, canvasWidth, canvasHeight, draws, 0, 0, 0, orig)
  {
    assert orig[..0] == [];
    if orig == [] {
      assert Fresh(canvasWidth, canvasHeight, draws, 0) == [];
    }
  }

  /** The cloud the loop of `updateClouds` drifts at index `i`: if it is then gone,
      an old cloud is being visited and a draw is left for its replacement. */
  lemma PassReplaces(orig: seq<Cloud>, canvasWidth: int, canvasHeight: int, draws: seq<CloudDraw>,
                     v: int, created: int, i: int, clouds: seq<Cloud>)
    requires |draws| >= |orig| && AllValid(draws) && canvasWidth >= 0
    requires MidPass(orig, canvasWidth, canvasHeight, draws, v, created, i, clouds)
    requires 0 <= i < |clouds|
    ensures Gone(Drift(clouds[i])) ==> v < |orig| && 0 <= created < |draws| && draws[created].Valid()
  {
    if v < |orig| {
      VisitOldCloud(orig, v, canvasWidth, canvasHeight, draws, created, clouds, i);
    } else {
      var n := |orig|;
      var kept := Survivors(orig[..n]);
      FreshSnoc(canvasWidth, canvasHeight, draws, i - |kept|);
      NewCloudStays(canvasWidth, canvasHeight, draws[i - |kept|]);
      VisitNewCloud(kept, Fresh(canvasWidth, canvasHeight, draws, created), i - |kept|, clouds, i);
    }
  }

  /** One iteration of the loop of `updateClouds` takes it from where it stood
      (`v`, `created`, `i`, `clouds`) to (`v'`, `created'`, `i'`, `clouds'`): the
      cloud at `i` drifts; one gone is spliced out, the index steps back, and a
      new cloud is pushed. */
  lemma PassStep(orig: seq<Cloud>, canvasWidth: int, canvasHeight: int, draws: seq<CloudDraw>,
                 v: int, created: int, i: int, clouds: seq<Cloud>,
                 v': int, created': int, i': int, clouds': seq<Cloud>)
    requires |draws| >= |orig| && AllValid(draws) && canvasWidth >= 0
    requires MidPass(orig, canvasWidth, canvasHeight, draws, v, created, i, clouds)
    requires 0 <= i < |clouds|
    requires v' == if v < |orig| then v + 1 else v
    requires var moved := clouds[i := Drift(clouds[i])];
      if Gone(moved[i]) then
        0 <= created < |draws| && draws[created].Valid()
        && clouds' == moved[..i] + moved[i + 1..] + [NewCloud(canvasWidth, canvasHeight, draws[created])]
        && i' == i && created' == created + 1
      else
        clouds' == moved && i' == i + 1 && created' == created
    ensures MidPass(orig, canvasWidth, canvasHeight, draws, v', created', i', clouds')
  {
    var n := |orig|;
    if v < n {
      VisitOldCloud(orig, v, canvasWidth, canvasHeight, draws, created, clouds, i);
      if v + 1 == n {
        assert orig[..n] == orig;
        var born := Fresh(canvasWidth, canvasHeight, draws, n - |Survivors(orig)|);
        OldCloudsVisited(Survivors(orig), born, orig[n..]);
      }
    } else {
      var kept := Survivors(orig[..n]);
      FreshSnoc(canvasWidth, canvasHeight, draws, i - |kept|);
      NewCloudStays(canvasWidth, canvasHeight, draws[i - |kept|]);
      VisitNewCloud(kept, Fresh(canvasWidth, canvasHeight, draws, created), i - |kept|, clouds, i);
    }
  }

  /** When the loop of `updateClouds` runs off the end, the list is the pass. */
  lemma PassEnd(orig: seq<Cloud>, canvasWidth: int, canvasHeight: int, draws: seq<CloudDraw>,
                v: int, created: int, i: int, clouds: seq<Cloud>)
    requires |draws| >= |orig| && AllValid(draws)
    requires MidPass(orig, canvasWidth, canvasHeight, draws, v, created, i, clouds)
    requires i >= |clouds|
    ensures clouds == CloudPass(orig, canvasWidth, canvasHeight, draws)
  {
    assert orig[..|orig|] == orig;
    var born := Fresh(canvasWidth, canvasHeight, draws, created);
    assert born[..|born|] == born && born[|born|..] == [];
  }

  /** `updateClouds`: each old cloud drifts by its own speed; each one that leaves
      the screen is spliced out and one new cloud is pushed at the end, which the
      same pass then drifts once. */
  function CloudPass(clouds: seq<Cloud>, canvasWidth: int, canvasHeight: int, draws: seq<CloudDraw>)
    : (r: seq<Cloud>)
    requires |draws| >= |clouds| && AllValid(draws)
    ensures |r| == |clouds|
  {
    var kept := Survivors(clouds);
    kept + DriftAll(Fresh(canvasWidth, canvasHeight, draws, |clouds| - |kept|))
  }

  function DriftAll(clouds: seq<Cloud>): (r: seq<Cloud>)
    ensures |r| == |clouds|
  {
    seq(|clouds|, k requires 0 <= k < |clouds| => Drift(clouds[k]))
  }

  /** A new cloud is never removed in the pass that created it, as long as the
      canvas has a non-negative width: the `updateClouds` loop terminates. */
  lemma NewCloudStays(canvasWidth: int, canvasHeight: int, d: CloudDraw)
    requires d.Valid() && canvasWidth >= 0
    ensures !Gone(Drift(NewCloud(canvasWidth, canvasHeight, d)))
  {
  }

  /** A cloud as the game keeps it: a size and speed `createCloud` can produce,
      not above the canvas, and not wholly off-screen. */
  predicate CloudShape(c: Cloud) {
    60.0 <= c.width < 140.0 && 40.0 <= c.height < 80.0 && 0.5 <= c.speed < 1.0
    && 0.0 <= c.y && !Gone(c)
  }

  /** ... and in the upper half of the canvas. */
  predicate CloudOk(c: Cloud, canvasHeight: int) {
    CloudShape(c) && c.y <= canvasHeight as real * 0.5
  }

  predicate CloudsOk(clouds: seq<Cloud>, canvasHeight: int) {
    forall k :: 0 <= k < |clouds| ==> CloudOk(clouds[k], canvasHeight)
  }

  lemma {:induction false} SurvivorsOk(clouds: seq<Cloud>, canvasHeight: int)
    requires CloudsOk(clouds, canvasHeight)
    ensures CloudsOk(Survivors(clouds), canvasHeight)
    decreases |clouds|
  {
    if clouds != [] {
      var front := clouds[..|clouds| - 1];
      assert CloudsOk(front, canvasHeight) by {
        forall k | 0 <= k < |front| ensures CloudOk(front[k], canvasHeight) {
          assert front[k] == clouds[k];
        }
      }
      SurvivorsOk(front, canvasHeight);
    }
  }

  /** A pass keeps every cloud well-formed. */
  lemma {:induction false} CloudPassKeepsOk(clouds: seq<Cloud>, canvasWidth: int, canvasHeight: int,
                                             draws: seq<CloudDraw>)
    requires canvasWidth >= 0 && canvasHeight >= 0
    requires |draws| >= |clouds| && AllValid(draws)
    requires CloudsOk(clouds, canvasHeight)
    ensures CloudsOk(CloudPass(clouds, canvasWidth, canvasHeight, draws), canvasHeight)
  {
    SurvivorsOk(clouds, canvasHeight);
    var kept := Survivors(clouds);
    var r := CloudPass(clouds, canvasWidth, canvasHeight, draws);
    forall k | 0 <= k < |r| ensures CloudOk(r[k], canvasHeight) {
      if k >= |kept| {
        assert draws[k - |kept|] in draws;
        NewCloudStays(canvasWidth, canvasHeight, draws[k - |kept|]);
      }
    }
  }
}
