/** The tap-the-target game (src/tapgame.cpp): a target appears at a random spot, a tap scores
    10 * level, and every hundred points the level rises and targets return sooner. */
module Tap {

  const START_DIFFICULTY: int := 2000
  const MIN_DIFFICULTY: int := 500
  const DIFFICULTY_STEP: int := 200
  const POINTS_PER_LEVEL: int := 10
  const LEVEL_POINTS: int := 100
  const TARGET_MIN_X: int := 30
  const TARGET_SPAN_X: int := 68   // random(68)
  const TARGET_MIN_Y: int := 20
  const TARGET_SPAN_Y: int := 30   // random(30)

  function Max(a: int, b: int): int { if a >= b then a else b }

  /** The waiting time between targets at level `l`. */
  function DifficultyAt(l: int): int
  {
    Max(MIN_DIFFICULTY, START_DIFFICULTY - DIFFICULTY_STEP * (l - 1))
  }

  datatype TapView = TapView(
    score: int, level: int, spawnTime: int, targetActive: bool, difficulty: int,
    targetX: int, targetY: int, gameStartTime: int)
  {
    /** The score counts in tens, the waiting time follows the level, and the target is on
        screen. */
    predicate Valid()
    {
      && score >= 0 && score % 10 == 0
      && level >= 1
      && difficulty == DifficultyAt(level)
      && TARGET_MIN_X <= targetX < TARGET_MIN_X + TARGET_SPAN_X
      && TARGET_MIN_Y <= targetY < TARGET_MIN_Y + TARGET_SPAN_Y
    }
  }

  predicate RollsOk(rx: int, ry: int)
  {
    0 <= rx < TARGET_SPAN_X && 0 <= ry < TARGET_SPAN_Y
  }

  /** spawnTarget(): a new active target at (30 + rx, 20 + ry). */
  function SpawnStep(v: TapView, now: int, rx: int, ry: int): TapView
  {
    v.(targetActive := true, spawnTime := now, targetX := TARGET_MIN_X + rx, targetY := TARGET_MIN_Y + ry)
  }

  function IncreaseLevelStep(v: TapView): TapView
  {
    v.(level := v.level + 1, difficulty := Max(MIN_DIFFICULTY, v.difficulty - DIFFICULTY_STEP))
  }

  /** registerTap(): an active target scores 10 * level and disappears; reaching a positive
      multiple of 100 raises the level. */
  function TapStep(v: TapView): TapView
  {
    if !v.targetActive then v
    else
      var s := v.(score := v.score + POINTS_PER_LEVEL * v.level, targetActive := false);
      if s.score > 0 && s.score % LEVEL_POINTS == 0 then IncreaseLevelStep(s) else s
  }

  /** update(now): an absent target returns once the waiting time has passed since the last
      spawn. */
  function UpdateStep(v: TapView, now: int, rx: int, ry: int): TapView
  {
    if !v.targetActive && now - v.spawnTime >= v.difficulty then SpawnStep(v, now, rx, ry) else v
  }

  function ResetStep(v: TapView, now: int, rx: int, ry: int): TapView
  {
    SpawnStep(v.(score := 0, level := 1, targetActive := false, difficulty := START_DIFFICULTY,
                 gameStartTime := now), now, rx, ry)
  }

  // ---------------------------------------------------------------------------------------------
  // Properties.

  lemma ResetStartsGame(v: TapView, now: int, rx: int, ry: int)
    requires RollsOk(rx, ry)
    ensures var r := ResetStep(v, now, rx, ry);
      && r.Valid() && r.score == 0 && r.level == 1 && r.difficulty == START_DIFFICULTY
      && r.targetActive && r.spawnTime == now && r.gameStartTime == now
  {
  }

  /** A tap on an active target scores 10 * level and removes the target; with no target a tap
      does nothing. */
  lemma TapScores(v: TapView)
    requires v.Valid()
    ensures var r := TapStep(v);
      && (v.targetActive ==> r.score == v.score + POINTS_PER_LEVEL * v.level && !r.targetActive)
      && (!v.targetActive ==> r == v)
  {
  }

  /** The level rises by one exactly on a tap that lands the score on a positive multiple of 100,
      and the waiting time follows it, never below 500 ms. */
  lemma LevelRisesOnHundreds(v: TapView)
    requires v.Valid()
    ensures var r := TapStep(v);
      && (r.level == v.level + 1 <==> v.targetActive && r.score > 0 && r.score % LEVEL_POINTS == 0)
      && (r.level != v.level + 1 ==> r.level == v.level && r.difficulty == v.difficulty)
      && r.Valid()
      && MIN_DIFFICULTY <= r.difficulty <= START_DIFFICULTY
  {
    if v.targetActive {
      var s := v.score + POINTS_PER_LEVEL * v.level;
      assert s % 10 == 0 by {
        assert POINTS_PER_LEVEL * v.level == 10 * v.level;
      }
    }
  }

  /** The waiting time starts at 2000 ms and loses 200 ms per level down to 500 ms. */
  lemma DifficultyBounds(l: int)
    requires l >= 1
    ensures MIN_DIFFICULTY <= DifficultyAt(l) <= START_DIFFICULTY
    ensures DifficultyAt(l + 1) == Max(MIN_DIFFICULTY, DifficultyAt(l) - DIFFICULTY_STEP)
    ensures l >= 9 ==> DifficultyAt(l) == MIN_DIFFICULTY
  {
  }

  /** update spawns exactly when there is no target and the waiting time has passed; a spawned
      target is on screen. */
  lemma UpdateSpawns(v: TapView, now: int, rx: int, ry: int)
    requires v.Valid() && RollsOk(rx, ry)
    ensures var r := UpdateStep(v, now, rx, ry);
      && (!v.targetActive && r.targetActive <==> !v.targetActive && now - v.spawnTime >= v.difficulty)
      && (!v.targetActive && now - v.spawnTime >= v.difficulty ==>
            r == SpawnStep(v, now, rx, ry) && 30 <= r.targetX <= 97 && 20 <= r.targetY <= 49)
      && (v.targetActive || now - v.spawnTime < v.difficulty ==> r == v)
      && r.Valid()
  {
  }

  // ---------------------------------------------------------------------------------------------
  // The game as the object the source mutates.

  class TapGame {
    var score: int
    var level: int
    var spawnTime: int
    var targetActive: bool
    var difficulty: int
    var targetX: int
    var targetY: int
    var gameStartTime: int

    function Snap(): TapView
      reads this
    {
      TapView(score, level, spawnTime, targetActive, difficulty, targetX, targetY, gameStartTime)
    }

    ghost predicate Valid()
      reads this
    {
      Snap().Valid()
    }

    /** The source leaves spawnTime uninitialised; here it is 0. */
    constructor()
      ensures Valid() && Snap() == TapView(0, 1, 0, false, START_DIFFICULTY, 64, 32, 0)
    {
      score := 0;
      level := 1;
      spawnTime := 0;
      targetActive := false;
      difficulty := START_DIFFICULTY;
      targetX := 64;
      targetY := 32;
      gameStartTime := 0;
    }

    method Reset(now: nat, rx: int, ry: int)
      requires RollsOk(rx, ry)
      modifies this
      ensures Valid() && Snap() == ResetStep(old(Snap()), now, rx, ry)
    {
      score := 0;
      level := 1;
      targetActive := false;
      difficulty := START_DIFFICULTY;
      gameStartTime := now;
      SpawnTarget(now, rx, ry);
    }

    method Update(now: nat, rx: int, ry: int)
      requires Valid() && RollsOk(rx, ry)
      modifies this
      ensures Valid() && Snap() == UpdateStep(old(Snap()), now, rx, ry)
    {
      if !targetActive {
        if now - spawnTime >= difficulty {
          SpawnTarget(now, rx, ry);
        }
      }
    }

    method SpawnTarget(now: nat, rx: int, ry: int)
      requires RollsOk(rx, ry)
      modifies this
      ensures Snap() == SpawnStep(old(Snap()), now, rx, ry)
    {
      targetActive := true;
      spawnTime := now;
      targetX := TARGET_MIN_X + rx;
      targetY := TARGET_MIN_Y + ry;
    }

    method RegisterTap()
      requires Valid()
      modifies this
      ensures Valid() && Snap() == TapStep(old(Snap()))
    {
      LevelRisesOnHundreds(Snap());
      if targetActive {
        score := score + POINTS_PER_LEVEL * level;
        targetActive := false;
        if score > 0 && score % LEVEL_POINTS == 0 {
          IncreaseLevel();
        }
      }
    }

    method IncreaseLevel()
      modifies this
      ensures Snap() == IncreaseLevelStep(old(Snap()))
    {
      level := level + 1;
      difficulty := Max(MIN_DIFFICULTY, difficulty - DIFFICULTY_STEP);
    }
  }
}
