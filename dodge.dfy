/** The lane-dodging game (src/game.cpp, constants from include/game.h). Obstacle positions and
    the speed are floats in the source; here they are exact reals. */
module Dodge {

  const GAME_WIDTH: int := 128
  const NUM_LANES: int := 3
  const MAX_OBSTACLES: int := 5
  const PLAYER_X: int := 10
  const PLAYER_WIDTH: int := 8
  const OBSTACLE_WIDTH: int := 8
  const DESPAWN_X: int := -10             // an obstacle left of this is removed
  const START_SPEED: real := 2.0
  const SPEED_STEP: real := 0.3
  const MAX_SPEED: real := 5.5
  const POINTS_PER_LEVEL: int := 10       // a dodge is worth 10 * level

  function Min(a: int, b: int): int { if a <= b then a else b }
  function Max(a: int, b: int): int { if a >= b then a else b }
  function MinReal(a: real, b: real): real { if a <= b then a else b }

  datatype Obstacle = Obstacle(x: real, lane: int, active: bool)

  /** An active obstacle is in a lane and between the despawn line and the right edge. */
  predicate SlotOk(o: Obstacle)
  {
    o.active ==> 0 <= o.lane < NUM_LANES && DESPAWN_X as real <= o.x <= GAME_WIDTH as real
  }

  // ---------------------------------------------------------------------------------------------
  // The obstacle array.

  /** The number of active slots. */
  function ActiveCount(s: seq<Obstacle>): (n: nat)
    ensures n <= |s|
  {
    if s == [] then 0 else ActiveCount(s[..|s| - 1]) + (if s[|s| - 1].active then 1 else 0)
  }

  /** Replacing one slot changes the count by the difference of the two slots' activity. */
  lemma {:induction false} ActiveCountUpdate(s: seq<Obstacle>, k: int, o: Obstacle)
    requires 0 <= k < |s|
    ensures ActiveCount(s[k := o]) ==
            ActiveCount(s) - (if s[k].active then 1 else 0) + (if o.active then 1 else 0)
  {
    var n := |s| - 1;
    assert s[k := o][..n] == if k == n then s[..n] else s[..n][k := o];
    if k < n {
      ActiveCountUpdate(s[..n], k, o);
    }
  }

  /** A sequence of active slots counts in full. */
  lemma {:induction false} AllActiveCount(s: seq<Obstacle>)
    requires forall j :: 0 <= j < |s| ==> s[j].active
    ensures ActiveCount(s) == |s|
  {
    if s != [] {
      AllActiveCount(s[..|s| - 1]);
    }
  }

  /** The index of the lowest inactive slot, or |s| when all are active. */
  function FirstInactive(s: seq<Obstacle>): (k: nat)
    ensures k <= |s|
    ensures k < |s| ==> !s[k].active
    ensures forall j :: 0 <= j < k ==> s[j].active
  {
    if s == [] then 0 else if !s[0].active then 0 else 1 + FirstInactive(s[1..])
  }

  /** Fewer active slots than slots means there is an inactive one. */
  lemma FreeSlotExists(s: seq<Obstacle>)
    requires ActiveCount(s) < |s|
    ensures FirstInactive(s) < |s|
  {
    if FirstInactive(s) == |s| {
      AllActiveCount(s);
    }
  }

  /** One step of an obstacle: it moves left by `speed` and is removed once past x = -10. */
  function Advance(o: Obstacle, speed: real): Obstacle
  {
    if !o.active then o
    else
      var nx := o.x - speed;
      Obstacle(nx, o.lane, !(nx < DESPAWN_X as real))
  }

  /** The source's dodge test on the moved position: x <= 10 and x > 10 - speed. */
  predicate Dodged(o: Obstacle, speed: real)
  {
    o.active && o.x - speed <= PLAYER_X as real && o.x - speed > PLAYER_X as real - speed
  }

  /** The dodge test says exactly that the obstacle crossed x = 10 on this step, and an obstacle
      that crosses it is still on screen afterwards. */
  lemma DodgedIsCrossing(o: Obstacle, speed: real)
    requires 0.0 < speed <= MAX_SPEED
    ensures Dodged(o, speed) <==> o.active && o.x > PLAYER_X as real && Advance(o, speed).x <= PLAYER_X as real
    ensures Dodged(o, speed) ==> Advance(o, speed).active
  {
  }

  function AdvanceAll(s: seq<Obstacle>, speed: real): (r: seq<Obstacle>)
    ensures |r| == |s|
  {
    seq(|s|, j requires 0 <= j < |s| => Advance(s[j], speed))
  }

  /** The number of obstacles the dodge test counts in one pass. */
  function DodgeCount(s: seq<Obstacle>, speed: real): nat
  {
    if s == [] then 0
    else DodgeCount(s[..|s| - 1], speed) + (if Dodged(s[|s| - 1], speed) then 1 else 0)
  }

  /** The number of obstacles one pass removes. */
  function Departed(s: seq<Obstacle>, speed: real): nat
  {
    if s == [] then 0
    else Departed(s[..|s| - 1], speed) + (if s[|s| - 1].active && !Advance(s[|s| - 1], speed).active then 1 else 0)
  }

  /** One pass removes exactly what it deactivates: the count of active slots drops by Departed. */
  lemma {:induction false} ActiveAfterAdvance(s: seq<Obstacle>, speed: real)
    ensures ActiveCount(AdvanceAll(s, speed)) == ActiveCount(s) - Departed(s, speed)
  {
    if s != [] {
      var n := |s| - 1;
      assert AdvanceAll(s, speed)[..n] == AdvanceAll(s[..n], speed);
      ActiveAfterAdvance(s[..n], speed);
    }
  }

  /** Extending a processed prefix by one slot adds that slot's contribution. */
  lemma PrefixStep(s: seq<Obstacle>, i: int, speed: real)
    requires 0 <= i < |s|
    ensures DodgeCount(s[..i + 1], speed) == DodgeCount(s[..i], speed) + (if Dodged(s[i], speed) then 1 else 0)
    ensures Departed(s[..i + 1], speed) ==
            Departed(s[..i], speed) + (if s[i].active && !Advance(s[i], speed).active then 1 else 0)
  {
    assert s[..i + 1][..i] == s[..i];
  }

  /** All slots inactive, positions and lanes kept, as reset() leaves them. */
  function Deactivated(s: seq<Obstacle>): (r: seq<Obstacle>)
    ensures |r| == |s|
  {
    seq(|s|, j requires 0 <= j < |s| => s[j].(active := false))
  }

  lemma {:induction false} NoneActive(s: seq<Obstacle>)
    requires forall j :: 0 <= j < |s| ==> !s[j].active
    ensures ActiveCount(s) == 0
  {
    if s != [] {
      NoneActive(s[..|s| - 1]);
    }
  }

  // ---------------------------------------------------------------------------------------------
  // The game's fields as a value.

  datatype DodgeView = DodgeView(
    playerLane: int, score: int, level: int, record: int, obstacleSpeed: real,
    lastObstacleTime: int, lastUpdateTime: int, boxesDodgedThisLevel: int,
    obstacles: seq<Obstacle>, obstacleCount: int, maxActiveObstacles: int,
    prefs: map<string, int>)
  {
    /** The game's invariant: the player is in a lane, the counter matches the active slots and
        respects the per-level cap, and the speed stays within its bounds. */
    predicate Valid()
    {
      && |obstacles| == MAX_OBSTACLES
      && 0 <= playerLane < NUM_LANES
      && level >= 1 && score >= 0 && record >= 0 && boxesDodgedThisLevel >= 0
      && START_SPEED <= obstacleSpeed <= MAX_SPEED
      && maxActiveObstacles == Min(MAX_OBSTACLES, level)
      && obstacleCount == ActiveCount(obstacles)
      && obstacleCount <= maxActiveObstacles
      && (forall j :: 0 <= j < |obstacles| ==> SlotOk(obstacles[j]))
      && RecordStored(prefs)
    }
  }

  predicate RecordStored(prefs: map<string, int>)
  {
    "gameRecord" in prefs ==> prefs["gameRecord"] >= 0
  }

  function GetInt(prefs: map<string, int>, key: string, default: int): int
  {
    if key in prefs then prefs[key] else default
  }

  /** The number of dodges that completes level `l`. */
  function BoxesRequired(l: int): int
  {
    (l * l + l + 8) / 2
  }

  /** The spawn interval in ms at level `l`. */
  function SpawnInterval(l: int): int
  {
    Max(1000 - l * 50, 200)
  }

  function ResetStep(v: DodgeView, now: int): (r: DodgeView)
    ensures v.Valid() ==> r.Valid()
  {
    NoneActive(Deactivated(v.obstacles));
    v.(playerLane := 1, score := 0, level := 1, obstacleSpeed := START_SPEED,
       lastObstacleTime := now, lastUpdateTime := now, obstacleCount := 0,
       boxesDodgedThisLevel := 0, maxActiveObstacles := 1,
       obstacles := Deactivated(v.obstacles))
  }

  function MoveLeftStep(v: DodgeView): (r: DodgeView)
  {
    if v.playerLane > 0 then v.(playerLane := v.playerLane - 1) else v
  }

  function MoveRightStep(v: DodgeView): (r: DodgeView)
  {
    if v.playerLane < NUM_LANES - 1 then v.(playerLane := v.playerLane + 1) else v
  }

  /** spawnObstacle(): under the cap, the lowest inactive slot gets a new obstacle at the right
      edge in lane `laneRoll`. */
  function SpawnStep(v: DodgeView, laneRoll: int): DodgeView
  {
    if v.obstacleCount >= v.maxActiveObstacles then v
    else
      var k := FirstInactive(v.obstacles);
      if k < |v.obstacles|
      then v.(obstacles := v.obstacles[k := Obstacle(GAME_WIDTH as real, laneRoll, true)],
              obstacleCount := v.obstacleCount + 1)
      else v
  }

  /** The state after the loop of updateObstacles() has processed the first `i` slots. */
  function AdvancePrefix(v: DodgeView, i: nat): DodgeView
    requires i <= |v.obstacles|
  {
    var done := v.obstacles[..i];
    v.(obstacles := AdvanceAll(done, v.obstacleSpeed) + v.obstacles[i..],
       score := v.score + POINTS_PER_LEVEL * v.level * DodgeCount(done, v.obstacleSpeed),
       boxesDodgedThisLevel := v.boxesDodgedThisLevel + DodgeCount(done, v.obstacleSpeed),
       obstacleCount := v.obstacleCount - Departed(done, v.obstacleSpeed))
  }

  /** updateObstacles(): every active obstacle moves, each dodge scores 10 * level and counts
      toward the level, and obstacles past the left edge are removed. */
  function UpdateObstaclesStep(v: DodgeView): DodgeView
  {
    AdvancePrefix(v, |v.obstacles|)
  }

  function IncreaseLevelStep(v: DodgeView): DodgeView
  {
    v.(level := v.level + 1, boxesDodgedThisLevel := 0,
       obstacleSpeed := MinReal(MAX_SPEED, v.obstacleSpeed + SPEED_STEP),
       maxActiveObstacles := Min(MAX_OBSTACLES, v.level + 1))
  }

  /** The first part of update(now): a spawn once the interval has passed since the last one. */
  function Spawned(v: DodgeView, now: int, laneRoll: int): DodgeView
  {
    if now - v.lastObstacleTime >= SpawnInterval(v.level)
    then SpawnStep(v, laneRoll).(lastObstacleTime := now) else v
  }

  /** The number of obstacles the pass of update(now) counts as dodged. */
  function PassDodges(v: DodgeView, now: int, laneRoll: int): nat
  {
    DodgeCount(Spawned(v, now, laneRoll).obstacles, v.obstacleSpeed)
  }

  /** update(now): spawn when the interval has passed, move the obstacles, level up when enough
      obstacles were dodged. */
  function UpdateStep(v: DodgeView, now: int, laneRoll: int): DodgeView
  {
    var u := UpdateObstaclesStep(Spawned(v, now, laneRoll));
    if u.boxesDodgedThisLevel >= BoxesRequired(u.level) then IncreaseLevelStep(u) else u
  }

  /** The collision test of one obstacle against the player's fixed span 10..18. */
  predicate Collides(o: Obstacle, lane: int)
  {
    && o.active && o.lane == lane
    && o.x < (PLAYER_X + PLAYER_WIDTH) as real && o.x + OBSTACLE_WIDTH as real > PLAYER_X as real
  }

  predicate Collision(v: DodgeView)
  {
    exists j :: 0 <= j < |v.obstacles| && Collides(v.obstacles[j], v.playerLane)
  }

  /** saveRecord(): keep the best level and persist it when it improves. */
  function SaveRecordStep(v: DodgeView): DodgeView
  {
    if v.level > v.record then v.(record := v.level, prefs := v.prefs["gameRecord" := v.level]) else v
  }

  // ---------------------------------------------------------------------------------------------
  // Properties.

  /** The player never leaves the three lanes; moving into a wall does nothing. */
  lemma MovesStayInLanes(v: DodgeView)
    requires v.Valid()
    ensures MoveLeftStep(v).Valid() && MoveRightStep(v).Valid()
    ensures v.playerLane == 0 ==> MoveLeftStep(v) == v
    ensures v.playerLane == NUM_LANES - 1 ==> MoveRightStep(v) == v
    ensures MoveLeftStep(v).playerLane == Max(0, v.playerLane - 1)
    ensures MoveRightStep(v).playerLane == Min(NUM_LANES - 1, v.playerLane + 1)
  {
  }

  /** Spawning under the cap fills only the lowest inactive slot, at x = 128 in the rolled lane. */
  lemma SpawnFillsLowestFreeSlot(v: DodgeView, laneRoll: int)
    requires v.Valid() && 0 <= laneRoll < NUM_LANES
    requires v.obstacleCount < v.maxActiveObstacles
    ensures var k := FirstInactive(v.obstacles);
      && k < MAX_OBSTACLES
      && (forall j :: 0 <= j < k ==> v.obstacles[j].active)
      && SpawnStep(v, laneRoll).obstacles == v.obstacles[k := Obstacle(GAME_WIDTH as real, laneRoll, true)]
      && SpawnStep(v, laneRoll).obstacleCount == v.obstacleCount + 1
  {
    FreeSlotExists(v.obstacles);
  }

  lemma SpawnKeepsValid(v: DodgeView, laneRoll: int)
    requires v.Valid() && 0 <= laneRoll < NUM_LANES
    ensures SpawnStep(v, laneRoll).Valid()
  {
    if v.obstacleCount < v.maxActiveObstacles {
      FreeSlotExists(v.obstacles);
      var k := FirstInactive(v.obstacles);
      ActiveCountUpdate(v.obstacles, k, Obstacle(GAME_WIDTH as real, laneRoll, true));
    }
  }

  lemma {:induction false} DodgeCountBound(s: seq<Obstacle>, speed: real)
    ensures DodgeCount(s, speed) <= |s|
    ensures Departed(s, speed) <= ActiveCount(s)
  {
    if s != [] {
      DodgeCountBound(s[..|s| - 1], speed);
    }
  }

  /** Moving the obstacles keeps the count equal to the active slots and under the cap. */
  lemma UpdateObstaclesKeepsValid(v: DodgeView)
    requires v.Valid()
    ensures UpdateObstaclesStep(v).Valid()
  {
    var s := v.obstacles;
    assert s[..|s|] == s;
    ActiveAfterAdvance(s, v.obstacleSpeed);
    DodgeCountBound(s, v.obstacleSpeed);
    var r := UpdateObstaclesStep(v);
    assert r.obstacles == AdvanceAll(s, v.obstacleSpeed);
    forall j | 0 <= j < |r.obstacles| ensures SlotOk(r.obstacles[j]) {
      assert SlotOk(s[j]);
    }
  }

  /** One more dodge adds 10 * level to the score. */
  lemma ScoreStep(level: int, c: int)
    ensures POINTS_PER_LEVEL * level * (c + 1) == POINTS_PER_LEVEL * level * c + POINTS_PER_LEVEL * level
  {
  }

  /** The fields the loop of updateObstacles() leaves after its last slot are the step's result. */
  lemma PassComplete(v: DodgeView, w: DodgeView)
    requires v.Valid() && |w.obstacles| == MAX_OBSTACLES
    requires forall j :: 0 <= j < MAX_OBSTACLES ==> w.obstacles[j] == Advance(v.obstacles[j], v.obstacleSpeed)
    requires w.score == v.score + POINTS_PER_LEVEL * v.level * DodgeCount(v.obstacles, v.obstacleSpeed)
    requires w.boxesDodgedThisLevel == v.boxesDodgedThisLevel + DodgeCount(v.obstacles, v.obstacleSpeed)
    requires w.obstacleCount == v.obstacleCount - Departed(v.obstacles, v.obstacleSpeed)
    requires w == v.(obstacles := w.obstacles, score := w.score, boxesDodgedThisLevel := w.boxesDodgedThisLevel,
                     obstacleCount := w.obstacleCount)
    ensures w == UpdateObstaclesStep(v) && w.Valid()
  {
    UpdateObstaclesKeepsValid(v);
    assert v.obstacles[..MAX_OBSTACLES] == v.obstacles;
    assert v.obstacles[MAX_OBSTACLES..] == [];
    assert w.obstacles == AdvanceAll(v.obstacles, v.obstacleSpeed);
  }

  /** A level-up adds one level, clears the dodge counter, raises the speed by 0.3 up to 5.5 and
      the cap by one up to MAX_OBSTACLES. */
  lemma IncreaseLevelKeepsValid(v: DodgeView)
    requires v.Valid()
    ensures var r := IncreaseLevelStep(v);
      && r.Valid() && r.level == v.level + 1 && r.boxesDodgedThisLevel == 0
      && r.obstacleSpeed == MinReal(MAX_SPEED, v.obstacleSpeed + SPEED_STEP)
      && r.maxActiveObstacles == Min(MAX_OBSTACLES, r.level)
  {
  }

  lemma UpdateKeepsValid(v: DodgeView, now: int, laneRoll: int)
    requires v.Valid() && 0 <= laneRoll < NUM_LANES
    ensures UpdateStep(v, now, laneRoll).Valid()
  {
    SpawnKeepsValid(v, laneRoll);
    UpdateObstaclesKeepsValid(Spawned(v, now, laneRoll));
  }

  /** update(now) levels up exactly when the dodges of its pass complete the level's quota: the
      level rises by one and the counter restarts at 0. Otherwise the level stays and the counter
      grows by the pass's dodges. Each dodge scores 10 * level, and the record is untouched. */
  lemma UpdateLevels(v: DodgeView, now: int, laneRoll: int)
    ensures var r := UpdateStep(v, now, laneRoll);
      var d := PassDodges(v, now, laneRoll);
      && (r.level == v.level + 1 <==> v.boxesDodgedThisLevel + d >= BoxesRequired(v.level))
      && (v.boxesDodgedThisLevel + d >= BoxesRequired(v.level) ==> r.boxesDodgedThisLevel == 0)
      && (v.boxesDodgedThisLevel + d < BoxesRequired(v.level) ==>
            r.level == v.level && r.boxesDodgedThisLevel == v.boxesDodgedThisLevel + d)
      && r.score == v.score + POINTS_PER_LEVEL * v.level * d
      && r.record == v.record
  {
    var s := Spawned(v, now, laneRoll);
    assert s.obstacles[..|s.obstacles|] == s.obstacles;
  }

  /** A run of updates: vs[j + 1] is update j, at time ts[j] with lane roll lanes[j], applied to
      vs[j]; every state has the five slots. */
  predicate IsRun(vs: seq<DodgeView>, ts: seq<int>, lanes: seq<int>)
  {
    && |vs| == |ts| + 1 && |lanes| == |ts|
    && (forall k :: 0 <= k < |vs| ==> |vs[k].obstacles| == MAX_OBSTACLES)
    && (forall j :: 0 <= j < |ts| ==> vs[j + 1] == UpdateStep(vs[j], ts[j], lanes[j]))
  }

  /** The dodges counted by the first `k` updates of a run. */
  function RunDodges(vs: seq<DodgeView>, ts: seq<int>, lanes: seq<int>, k: nat): nat
    requires |vs| == |ts| + 1 && |lanes| == |ts| && k <= |ts|
  {
    if k == 0 then 0 else RunDodges(vs, ts, lanes, k - 1) + PassDodges(vs[k - 1], ts[k - 1], lanes[k - 1])
  }

  /** Where a game from a reset stands after `n` dodges, at most 12: the first 5 dodges reach
      level 2, and 7 more reach level 3, each level-up restarting the counter. A dodge scores 10 at
      level 1 and 20 at level 2. */
  predicate FiveThenSevenAt(v: DodgeView, n: nat)
  {
    && (n < 5 ==> v.level == 1 && v.boxesDodgedThisLevel == n && v.score == 10 * n)
    && (5 <= n < 12 ==> v.level == 2 && v.boxesDodgedThisLevel == n - 5 && v.score == 50 + 20 * (n - 5))
    && (n == 12 ==> v.level == 3 && v.boxesDodgedThisLevel == 0 && v.score == 190)
  }

  /** One more update, dodging `d` of at most one obstacle, keeps to that schedule. */
  lemma FiveThenSevenStep(v: DodgeView, now: int, laneRoll: int, n: nat)
    requires FiveThenSevenAt(v, n) && PassDodges(v, now, laneRoll) <= 1
    requires n + PassDodges(v, now, laneRoll) <= 12
    ensures FiveThenSevenAt(UpdateStep(v, now, laneRoll), n + PassDodges(v, now, laneRoll))
  {
    UpdateLevels(v, now, laneRoll);
    assert BoxesRequired(1) == 5 && BoxesRequired(2) == 7;
  }

  /** From a reset, with at most one dodge per update, the game follows the 5-then-7 schedule. */
  lemma {:induction false} FiveThenSeven(v0: DodgeView, t0: int, vs: seq<DodgeView>, ts: seq<int>,
                                         lanes: seq<int>, k: nat)
    requires IsRun(vs, ts, lanes) && vs[0] == ResetStep(v0, t0) && k <= |ts|
    requires forall j :: 0 <= j < |ts| ==> PassDodges(vs[j], ts[j], lanes[j]) <= 1
    requires RunDodges(vs, ts, lanes, k) <= 12
    ensures FiveThenSevenAt(vs[k], RunDodges(vs, ts, lanes, k))
  {
    if k > 0 {
      assert vs[k] == UpdateStep(vs[k - 1], ts[k - 1], lanes[k - 1]);
      FiveThenSeven(v0, t0, vs, ts, lanes, k - 1);
      FiveThenSevenStep(vs[k - 1], ts[k - 1], lanes[k - 1], RunDodges(vs, ts, lanes, k - 1));
    }
  }

  /** The dodge quota of each level: 5, 7, 10, 14 for levels 1 to 4, and in general one more
      than the level above the previous quota. */
  lemma BoxesRequiredGrowth(l: int)
    requires l >= 1
    ensures BoxesRequired(l + 1) == BoxesRequired(l) + l + 1
    ensures BoxesRequired(1) == 5 && BoxesRequired(2) == 7 && BoxesRequired(3) == 10 && BoxesRequired(4) == 14
  {
    assert (l + 1) * (l + 1) + (l + 1) + 8 == (l * l + l + 8) + 2 * (l + 1);
  }

  /** The spawn interval shrinks by 50 ms per level and never drops below 200 ms. */
  lemma SpawnIntervalBounds(l: int)
    requires l >= 1
    ensures 200 <= SpawnInterval(l) <= 950
    ensures SpawnInterval(l + 1) <= SpawnInterval(l)
    ensures l >= 16 ==> SpawnInterval(l) == 200
  {
  }

  /** The record is the maximum of the old record and the level, so it never decreases. */
  lemma RecordIsMonotone(v: DodgeView)
    ensures SaveRecordStep(v).record == Max(v.record, v.level)
    ensures SaveRecordStep(v).record >= v.record
    ensures v.Valid() ==> SaveRecordStep(v).Valid()
  {
  }

  /** reset() restores the starting state but keeps the record. */
  lemma ResetRestoresStart(v: DodgeView, now: int)
    requires v.Valid()
    ensures var r := ResetStep(v, now);
      && r.playerLane == 1 && r.level == 1 && r.score == 0 && r.obstacleSpeed == START_SPEED
      && r.obstacleCount == 0 && r.maxActiveObstacles == 1 && r.record == v.record
      && forall j :: 0 <= j < MAX_OBSTACLES ==> !r.obstacles[j].active
  {
  }

  // ---------------------------------------------------------------------------------------------
  // Dodged exactly once: one obstacle's passes.

  /** Where an obstacle is after one pass at each of `speeds`, in order. */
  function Passes(o: Obstacle, speeds: seq<real>): Obstacle
  {
    if speeds == [] then o else Advance(Passes(o, speeds[..|speeds| - 1]), speeds[|speeds| - 1])
  }

  /** The number of those passes whose dodge test counts the obstacle. */
  function Scored(o: Obstacle, speeds: seq<real>): nat
  {
    if speeds == [] then 0
    else
      var n := |speeds| - 1;
      Scored(o, speeds[..n]) + (if Dodged(Passes(o, speeds[..n]), speeds[n]) then 1 else 0)
  }

  predicate SpeedsOk(speeds: seq<real>)
  {
    forall k :: 0 <= k < |speeds| ==> 0.0 < speeds[k] <= MAX_SPEED
  }

  /** Whatever the speeds, an obstacle that starts active right of x = 10 has been counted as
      dodged once exactly when it is no longer active right of x = 10, and not at all before. */
  lemma {:induction false} ScoredOnceCrossed(o: Obstacle, speeds: seq<real>)
    requires o.active && o.x > PLAYER_X as real && SpeedsOk(speeds)
    ensures var p := Passes(o, speeds);
      Scored(o, speeds) == if p.active && p.x > PLAYER_X as real then 0 else 1
  {
    if speeds != [] {
      var n := |speeds| - 1;
      var init := speeds[..n];
      assert SpeedsOk(init) by {
        forall k | 0 <= k < |init| ensures 0.0 < init[k] <= MAX_SPEED {
          assert init[k] == speeds[k];
        }
      }
      ScoredOnceCrossed(o, init);
      var p := Passes(o, init);
      if p.active && p.x > PLAYER_X as real {
        DodgedIsCrossing(p, speeds[n]);
      }
    }
  }

  /** The dodge test of one slot is its own term of the pass's count. */
  lemma {:induction false} DodgeCountSlot(s: seq<Obstacle>, speed: real, j: int)
    requires 0 <= j < |s|
    ensures DodgeCount(s, speed) ==
            DodgeCount(s[j := s[j].(active := false)], speed) + (if Dodged(s[j], speed) then 1 else 0)
  {
    var n := |s| - 1;
    var t := s[j := s[j].(active := false)];
    assert t[..n] == if j == n then s[..n] else s[..n][j := s[j].(active := false)];
    if j < n {
      DodgeCountSlot(s[..n], speed, j);
    }
  }

  /** One update carries an active slot one pass further at the game's speed; the spawn leaves the
      slot alone, and the slot's dodge test is its term of the update's count. */
  lemma UpdateMovesSlot(v: DodgeView, now: int, laneRoll: int, j: int)
    requires 0 <= j < |v.obstacles| && v.obstacles[j].active
    ensures var s := Spawned(v, now, laneRoll);
      && |s.obstacles| == |v.obstacles| && s.obstacles[j] == v.obstacles[j]
      && |UpdateStep(v, now, laneRoll).obstacles| == |v.obstacles|
      && UpdateStep(v, now, laneRoll).obstacles[j] == Advance(v.obstacles[j], v.obstacleSpeed)
      && PassDodges(v, now, laneRoll) ==
         DodgeCount(s.obstacles[j := v.obstacles[j].(active := false)], v.obstacleSpeed)
         + (if Dodged(v.obstacles[j], v.obstacleSpeed) then 1 else 0)
  {
    var s := Spawned(v, now, laneRoll);
    assert s.obstacles[..|s.obstacles|] == s.obstacles;
    DodgeCountSlot(s.obstacles, v.obstacleSpeed, j);
  }

  /** The speeds of the first `n` updates of a run. */
  function RunSpeeds(vs: seq<DodgeView>, n: nat): (r: seq<real>)
    requires n <= |vs|
    ensures |r| == n
  {
    seq(n, k requires 0 <= k < n => vs[k].obstacleSpeed)
  }

  /** The dodges slot `j` contributes to the first `n` updates of a run. */
  function SlotDodges(vs: seq<DodgeView>, ts: seq<int>, lanes: seq<int>, j: int, n: nat): nat
    requires IsRun(vs, ts, lanes) && n <= |ts| && 0 <= j < MAX_OBSTACLES
  {
    if n == 0 then 0
    else
      var s := Spawned(vs[n - 1], ts[n - 1], lanes[n - 1]);
      SlotDodges(vs, ts, lanes, j, n - 1)
      + (if j < |s.obstacles| && Dodged(s.obstacles[j], vs[n - 1].obstacleSpeed) then 1 else 0)
  }

  /** While slot `j` stays active, a run moves it exactly as `Passes` does at the run's speeds,
      and its dodge tests add up to `Scored`. */
  lemma {:induction false} SlotTrajectory(vs: seq<DodgeView>, ts: seq<int>, lanes: seq<int>, j: int, n: nat)
    requires IsRun(vs, ts, lanes) && n <= |ts| && 0 <= j < MAX_OBSTACLES
    requires forall k :: 0 <= k < n ==> vs[k].obstacles[j].active
    ensures vs[n].obstacles[j] == Passes(vs[0].obstacles[j], RunSpeeds(vs, n))
    ensures SlotDodges(vs, ts, lanes, j, n) == Scored(vs[0].obstacles[j], RunSpeeds(vs, n))
  {
    if n > 0 {
      SlotTrajectory(vs, ts, lanes, j, n - 1);
      UpdateMovesSlot(vs[n - 1], ts[n - 1], lanes[n - 1], j);
      assert RunSpeeds(vs, n)[..n - 1] == RunSpeeds(vs, n - 1);
    }
  }

  /** Every state of a run from a valid state with lane rolls in range is valid. */
  lemma {:induction false} RunStaysValid(vs: seq<DodgeView>, ts: seq<int>, lanes: seq<int>, k: nat)
    requires IsRun(vs, ts, lanes) && vs[0].Valid() && k < |vs|
    requires forall i :: 0 <= i < |lanes| ==> 0 <= lanes[i] < NUM_LANES
    ensures vs[k].Valid()
  {
    if k > 0 {
      RunStaysValid(vs, ts, lanes, k - 1);
      UpdateKeepsValid(vs[k - 1], ts[k - 1], lanes[k - 1]);
    }
  }

  /** In a run of updates, an obstacle right of x = 10 in slot `j` (a spawn puts it at x = 128)
      that the passes carry off screen is counted as dodged exactly once on its way. */
  lemma ObstacleScoresOnce(vs: seq<DodgeView>, ts: seq<int>, lanes: seq<int>, j: int, n: nat)
    requires IsRun(vs, ts, lanes) && n <= |ts| && 0 <= j < MAX_OBSTACLES && vs[0].Valid()
    requires forall i :: 0 <= i < |lanes| ==> 0 <= lanes[i] < NUM_LANES
    requires vs[0].obstacles[j].active && vs[0].obstacles[j].x > PLAYER_X as real
    requires forall k :: 0 <= k < n ==> vs[k].obstacles[j].active
    requires !vs[n].obstacles[j].active
    ensures SlotDodges(vs, ts, lanes, j, n) == 1
  {
    SlotTrajectory(vs, ts, lanes, j, n);
    var sp := RunSpeeds(vs, n);
    forall k | 0 <= k < n ensures 0.0 < sp[k] <= MAX_SPEED {
      RunStaysValid(vs, ts, lanes, k);
    }
    ScoredOnceCrossed(vs[0].obstacles[j], sp);
  }

  /** Each step of an active obstacle moves it strictly left, so its positions fall. */
  lemma AdvanceFalls(o: Obstacle, speed: real)
    requires o.active && speed > 0.0
    ensures Advance(o, speed).x < o.x
    ensures Advance(o, speed).active <==> o.x - speed >= DESPAWN_X as real
  {
  }

  // ---------------------------------------------------------------------------------------------
  // The game as the object the source mutates.

  class DodgeGame {
    var playerLane: int
    var score: int
    var level: int
    var record: int
    var obstacleSpeed: real
    var lastObstacleTime: int
    var lastUpdateTime: int
    var boxesDodgedThisLevel: int
    const obstacles: array<Obstacle>
    var obstacleCount: int
    var maxActiveObstacles: int
    var prefs: map<string, int>

    function Snap(): DodgeView
      reads this, obstacles
    {
      DodgeView(playerLane, score, level, record, obstacleSpeed, lastObstacleTime, lastUpdateTime,
                boxesDodgedThisLevel, obstacles[..], obstacleCount, maxActiveObstacles, prefs)
    }

    ghost predicate Valid()
      reads this, obstacles
    {
      Snap().Valid()
    }

    /** The slots' positions and lanes are left uninitialised by the source; here they are 0. */
    constructor()
      ensures Valid() && fresh(obstacles)
      ensures Snap() == DodgeView(1, 0, 1, 0, START_SPEED, 0, 0, 0,
                                  seq(MAX_OBSTACLES, _ => Obstacle(0.0, 0, false)), 0, 1, map[])
    {
      playerLane := 1;
      score := 0;
      level := 1;
      record := 0;
      obstacleSpeed := START_SPEED;
      lastObstacleTime := 0;
      lastUpdateTime := 0;
      obstacleCount := 0;
      boxesDodgedThisLevel := 0;
      maxActiveObstacles := 1;
      prefs := map[];
      obstacles := new Obstacle[MAX_OBSTACLES](_ => Obstacle(0.0, 0, false));
      new;
      NoneActive(obstacles[..]);
    }

    /** initialize(): read the record from `store`, then reset. */
    method Initialize(store: map<string, int>, now: nat)
      requires Valid() && RecordStored(store)
      modifies this, obstacles
      ensures Valid()
      ensures Snap() == ResetStep(old(Snap()).(prefs := store, record := GetInt(store, "gameRecord", 0)), now)
    {
      prefs := store;
      LoadRecord();
      Reset(now);
    }

    method LoadRecord()
      requires Valid()
      modifies this
      ensures Valid() && Snap() == old(Snap()).(record := GetInt(prefs, "gameRecord", 0))
    {
      record := GetInt(prefs, "gameRecord", 0);
    }

    method SaveRecord()
      requires Valid()
      modifies this
      ensures Valid() && Snap() == SaveRecordStep(old(Snap()))
    {
      if level > record {
        record := level;
        prefs := prefs["gameRecord" := record];
      }
    }

    method Reset(now: nat)
      requires Valid()
      modifies this, obstacles
      ensures Valid() && Snap() == ResetStep(old(Snap()), now)
    {
      ghost var v := Snap();
      RestartCounters(now);
      DeactivateAll();
      assert Snap() == ResetStep(v, now);
    }

    /** The field assignments of reset(), before the slots are cleared. */
    method RestartCounters(now: nat)
      modifies this
      ensures Snap() == old(Snap()).(playerLane := 1, score := 0, level := 1, obstacleSpeed := START_SPEED,
                                     lastObstacleTime := now, lastUpdateTime := now, obstacleCount := 0,
                                     boxesDodgedThisLevel := 0, maxActiveObstacles := 1)
    {
      playerLane := 1;
      score := 0;
      level := 1;
      obstacleSpeed := START_SPEED;
      lastObstacleTime := now;
      lastUpdateTime := now;
      obstacleCount := 0;
      boxesDodgedThisLevel := 0;
      maxActiveObstacles := 1;
    }

    /** Every slot inactive; positions and lanes are left as they were. */
    method DeactivateAll()
      requires obstacles.Length == MAX_OBSTACLES
      modifies obstacles
      ensures obstacles[..] == Deactivated(old(obstacles[..]))
    {
      for i := 0 to MAX_OBSTACLES
        invariant forall j :: 0 <= j < i ==> obstacles[j] == old(obstacles[j]).(active := false)
        invariant forall j :: i <= j < MAX_OBSTACLES ==> obstacles[j] == old(obstacles[j])
      {
        obstacles[i] := obstacles[i].(active := false);
      }
    }

    method Update(now: nat, laneRoll: int)
      requires Valid() && 0 <= laneRoll < NUM_LANES
      modifies this, obstacles
      ensures Valid() && Snap() == UpdateStep(old(Snap()), now, laneRoll)
    {
      if now - lastObstacleTime >= SpawnInterval(level) {
        SpawnObstacle(laneRoll);
        lastObstacleTime := now;
      }
      UpdateObstacles();
      if boxesDodgedThisLevel >= BoxesRequired(level) {
        IncreaseLevel();
      }
    }

    method MoveLeft()
      requires Valid()
      modifies this
      ensures Valid() && Snap() == MoveLeftStep(old(Snap()))
    {
      if playerLane > 0 {
        playerLane := playerLane - 1;
      }
    }

    method MoveRight()
      requires Valid()
      modifies this
      ensures Valid() && Snap() == MoveRightStep(old(Snap()))
    {
      if playerLane < NUM_LANES - 1 {
        playerLane := playerLane + 1;
      }
    }

    method SpawnObstacle(laneRoll: int)
      requires Valid() && 0 <= laneRoll < NUM_LANES
      modifies this, obstacles
      ensures Valid() && Snap() == SpawnStep(old(Snap()), laneRoll)
    {
      SpawnKeepsValid(Snap(), laneRoll);
      if obstacleCount >= maxActiveObstacles {
        return;
      }
      var i := 0;
      while i < MAX_OBSTACLES
        invariant 0 <= i <= MAX_OBSTACLES
        invariant forall j :: 0 <= j < i ==> obstacles[j].active
        invariant Snap() == old(Snap())
      {
        if !obstacles[i].active {
          obstacles[i] := Obstacle(GAME_WIDTH as real, laneRoll, true);
          obstacleCount := obstacleCount + 1;
          assert i == FirstInactive(old(obstacles[..]));
          return;
        }
        i := i + 1;
      }
    }

    method UpdateObstacles()
      requires Valid()
      modifies this, obstacles
      ensures Valid() && Snap() == UpdateObstaclesStep(old(Snap()))
    {
      ghost var v := Snap();
      var sc, dodged, count := score, boxesDodgedThisLevel, obstacleCount;
      var i := 0;
      while i < MAX_OBSTACLES
        modifies obstacles
        invariant 0 <= i <= MAX_OBSTACLES
        invariant forall j :: 0 <= j < i ==> obstacles[j] == Advance(v.obstacles[j], obstacleSpeed)
        invariant forall j :: i <= j < MAX_OBSTACLES ==> obstacles[j] == v.obstacles[j]
        invariant sc == v.score + POINTS_PER_LEVEL * level * DodgeCount(v.obstacles[..i], obstacleSpeed)
        invariant dodged == v.boxesDodgedThisLevel + DodgeCount(v.obstacles[..i], obstacleSpeed)
        invariant count == v.obstacleCount - Departed(v.obstacles[..i], obstacleSpeed)
      {
        PrefixStep(v.obstacles, i, obstacleSpeed);
        ScoreStep(level, DodgeCount(v.obstacles[..i], obstacleSpeed));
        var o := obstacles[i];
        if o.active {
          o := o.(x := o.x - obstacleSpeed);
          if o.x <= PLAYER_X as real && o.x > PLAYER_X as real - obstacleSpeed {
            sc := sc + POINTS_PER_LEVEL * level;
            dodged := dodged + 1;
          }
          if o.x < DESPAWN_X as real {
            o := o.(active := false);
            count := count - 1;
          }
          obstacles[i] := o;
        }
        assert obstacles[i] == Advance(v.obstacles[i], obstacleSpeed);
        i := i + 1;
      }
      assert v.obstacles[..MAX_OBSTACLES] == v.obstacles;
      score, boxesDodgedThisLevel, obstacleCount := sc, dodged, count;
      PassComplete(v, Snap());
    }

    /** checkCollision(): some active obstacle in the player's lane overlaps the player. */
    method CheckCollision() returns (hit: bool)
      requires Valid()
      ensures hit <==> Collision(Snap())
    {
      var i := 0;
      while i < MAX_OBSTACLES
        invariant 0 <= i <= MAX_OBSTACLES
        invariant forall j :: 0 <= j < i ==> !Collides(obstacles[j], playerLane)
      {
        if obstacles[i].active {
          if obstacles[i].lane == playerLane {
            if obstacles[i].x < (PLAYER_X + PLAYER_WIDTH) as real
               && obstacles[i].x + OBSTACLE_WIDTH as real > PLAYER_X as real {
              return true;
            }
          }
        }
        i := i + 1;
      }
      return false;
    }

    method IncreaseLevel()
      requires Valid()
      modifies this
      ensures Valid() && Snap() == IncreaseLevelStep(old(Snap()))
    {
      IncreaseLevelKeepsValid(Snap());
      level := level + 1;
      boxesDodgedThisLevel := 0;
      obstacleSpeed := MinReal(MAX_SPEED, obstacleSpeed + SPEED_STEP);
      maxActiveObstacles := Min(MAX_OBSTACLES, level);
    }
  }
}
