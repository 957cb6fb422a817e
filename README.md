# Virtual pet engine in Dafny

This project models the engine of a handheld virtual pet. The pet has three needs (hunger,
boredom, sleepiness) and a coin balance. It is fed and cared for through a three-button menu, and
it earns coins in small games. The model covers the five state machines and the controller that
links them:

- `Pet` (`pet.dfy`, from `src/tamagotchi.cpp`): the stats, each clamped to 0..100, and the coin
  balance. It covers buying food and the memory game, feeding, playing, sleeping and waking, the
  decay tick once a minute, the three feedback flags that clear after 3000 ms, the mood priority,
  and saving and loading the stats.
- `Dodge` (`dodge.dfy`, from `src/game.cpp`): a lane-dodging game. It has three lanes, five
  obstacle slots kept in an array, a quota of dodges per level, a speed cap and a cap on active
  obstacles, collision detection and a best-level record.
- `Memory` (`memory.dfy`, from `src/memorygame.cpp`): a three-button memory game. The sequence
  grows by one symbol per completed round, each input is checked on the spot, and the timeout
  shrinks as the level rises.
- `TicTacToe` (`tictactoe.dfy`, from `src/tictactoe.cpp`): tic-tac-toe against the pet. It has
  the cursor search, the player's move, the pet's move (win, block at a roll below 85, random
  cell), win and draw detection, and win/draw/loss counters.
- `Tap` (`tap.dfy`, from `src/tapgame.cpp`): a tap-the-target game. Each tap scores 10 * level,
  and the waiting time shrinks with the level.
- `App` (`app.dfy`, from `src/main.cpp`): the controller. It decides which screen owns the
  buttons, keeps the cyclic menu indices and the 5000 ms menu timeout, wires shop purchases and
  game entry to the pet, and pays the coin rewards when a game ends.

Each module has the same layout:

- a datatype holding the object's fields as a value (`PetView`, `DodgeView`, …), with the
  invariant the object keeps (`Valid()`);
- pure step functions from one such value to the next, which specify what each operation of the
  source does;
- lemmas stating the properties of those steps;
- a class with the source's fields, whose methods change them step by step as the C++ does, in
  the same order and over the same arrays.

Every state-changing engine method ensures `Snap() == XStep(old(Snap()), …)`, where `Snap()` is
the object's fields as a value. The queries and loop helpers (`CheckCollision`, `Search`,
`Advance`, `DeactivateAll`, `ClearBoard` and the like) state their own effect instead. The lemmas about `XStep` therefore carry over to the object.

The clock `millis()` becomes a parameter `now`. Each `random()` result becomes a parameter
bounded as the call bounds it: the obstacle's lane, the next memory symbol, who starts a
tic-tac-toe game, the 0..99 block roll, the choice among the empty cells, and the tap target's
position. The `Preferences` store is an in-memory map. The pet's keys are a small enumeration
`Key`; the games use their string keys.

The model follows the code wherever it gives a different value from elsewhere in the repository:

- sleep is refused above sleepiness 25 (`src/tamagotchi.cpp:187`);
- a sleep lasts 600000 ms (`src/tamagotchi.cpp:19`);
- waking sets sleepiness to 100 (`src/tamagotchi.cpp:203`);
- the memory game costs 50 coins (`src/tamagotchi.cpp:63`), although the shop's label reads
  100;
- the mood checks low sleepiness before the angry flag (`src/tamagotchi.cpp:226-229`);
- the dodge game and the memory game follow the `.cpp` files rather than their headers.
  `record`, `maxActiveObstacles` and `saveRecord` are fields of the model. The memory game is the
  three-button game of `src/memorygame.cpp`.

## Model

| member | source | states |
|---|---|---|
| Pet.Clamp | include/tamagotchi.h:8-10 | the result is in 0..100; it equals the value inside that range, 0 below it and 100 above it |
| Pet.Saved | src/tamagotchi.cpp:241-247 | saving keeps the pet's invariant (the stored stats stay within 0..100, stored coins non-negative) |
| Pet.Loaded | src/tamagotchi.cpp:249-255 | loading keeps the invariant: a valid pet's store holds stats within 0..100 and a non-negative balance |
| Pet.LoadAfterSave | src/tamagotchi.cpp:241-255 | loading right after saving gives back hunger, boredom, sleepiness, coins and the sleeping flag unchanged |
| Pet.InitializeStep | src/tamagotchi.cpp:22-35 | start-up from a well-formed store keeps the invariant |
| Pet.InitializeLoads | src/tamagotchi.cpp:22-35 | after start-up the pet is awake and holds the stored stats, balance and unlock flag, or the defaults 100/100/100/0/false |
| Pet.BuyFoodStep | src/tamagotchi.cpp:37-58 | buying food keeps the stats in 0..100 and the balance non-negative |
| Pet.BuyMemoryGameStep | src/tamagotchi.cpp:61-75 | buying the memory game keeps the invariant |
| Pet.FeedStep | src/tamagotchi.cpp:129-161 | feeding keeps the invariant |
| Pet.PlayStep | src/tamagotchi.cpp:163-181 | playing keeps the invariant |
| Pet.SleepStep | src/tamagotchi.cpp:183-197 | going to sleep keeps the invariant |
| Pet.WakeStep | src/tamagotchi.cpp:199-209 | waking keeps the invariant |
| Pet.AddCoinsStep | src/tamagotchi.cpp:211-214 | adding a non-negative amount keeps the invariant |
| Pet.AddBoredomStep | src/tamagotchi.cpp:216-219 | adding boredom relief keeps boredom within 0..100 |
| Pet.SetHungerStep | include/tamagotchi.h:8 | the clamped setter keeps the invariant whatever the argument |
| Pet.SetSleepinessStep | include/tamagotchi.h:9 | the clamped setter keeps the invariant whatever the argument |
| Pet.SetBoredomStep | include/tamagotchi.h:10 | the clamped setter keeps the invariant whatever the argument |
| Pet.ExpireFlags | src/tamagotchi.cpp:80-93 | expiring the flags keeps the invariant |
| Pet.DecayStep | src/tamagotchi.cpp:107-127 | the minute tick keeps the stats in 0..100 |
| Pet.Decayed | src/tamagotchi.cpp:110-117 | one minute's decay keeps each stat in 0..100 |
| Pet.UpdateStep | src/tamagotchi.cpp:77-105 | the periodic update keeps the stats in 0..100 and the balance non-negative |
| Pet.Mood | src/tamagotchi.cpp:221-239 | the mood is one of 0, 2, 3, 4, 5 |
| Pet.BuyFoodContract | src/tamagotchi.cpp:37-58 | a food type outside 0..3 fails and changes nothing; for a food, success holds exactly when coins cover the cost; success spends the cost, restores the table amount capped at 100, shows the happy face from `now`, keeps the sleeping and unlock flags, and persists the stats; failure only raises the insufficient-coins flag with its timer |
| Pet.FoodTable | src/tamagotchi.cpp:40-45 | the table is 10/25, 15/50, 20/75, 25/100 |
| Pet.FeedContract | src/tamagotchi.cpp:129-161 | feeding succeeds exactly when awake, with at least 10 coins and hunger at most 80; asleep changes nothing; too few coins raises only the insufficient-coins flag; too full raises only the angry flag; success costs 10 coins, adds 20 hunger capped at 100, takes 5 sleepiness floored at 0, leaves boredom and the sleeping and unlock flags alone, shows the happy face from `now`, and persists the stats |
| Pet.PlayContract | src/tamagotchi.cpp:163-181 | play fails exactly when asleep, with no change; otherwise hunger and sleepiness each drop by 15 floored at 0, coins and boredom stay, and the happy face shows at `now` |
| Pet.SleepContract | src/tamagotchi.cpp:183-197 | sleep succeeds exactly when awake with sleepiness at most 25; asleep changes nothing; above 25 only the angry flag rises; success starts the sleep at `now` and changes no persisted value but the sleeping flag |
| Pet.UpdateWhileAsleep | src/tamagotchi.cpp:95-101 | a sleeping pet wakes exactly once 600000 ms have passed since the sleep began, with sleepiness 100, boredom + 20 capped, hunger − 15 floored and coins kept; before that its stats and store do not change |
| Pet.UpdateWhileAwake | src/tamagotchi.cpp:103-127 | an awake pet decays by 4, 2 and 1 (floored at 0) exactly when 60000 ms have passed since the last decay, restarting the minute at `now`, and is then asleep exactly when sleepiness reached 0; otherwise its stats, store and minute stamp stay |
| Pet.DecayAtMostOncePerMinute | src/tamagotchi.cpp:107-127 | a second tick less than 60000 ms after a decay changes nothing |
| Pet.FlagsExpire | src/tamagotchi.cpp:80-93 | each of the three flags is up afterwards exactly when it was up and has been up for less than 3000 ms; the stats and the store are untouched |
| Pet.MoodPriority | src/tamagotchi.cpp:221-239 | happy flag → 3; else sleepiness < 20 → 4; else angry flag or hunger < 20 → 2; else boredom < 20 → 5; the mood is 0 exactly when no flag is up and all three stats are at least 20 |
| Pet.BuyMemoryGameContract | src/tamagotchi.cpp:61-75 | the purchase succeeds exactly when locked and coins ≥ 50; already unlocked changes nothing; too few coins raises only the insufficient-coins flag; success spends 50, unlocks, persists the unlock, shows the happy face from `now`, and saves the stats so that loading them back gives the same stats |
| Pet.FreshPetFeedTwice | src/tamagotchi.cpp:129-144 | a new pet cannot be fed for want of coins, and after 10 coins it is refused again as too full, keeping its 10 coins |
| Pet.Tamagotchi.constructor | src/tamagotchi.cpp:3-20 | the fields of a new pet: stats 100, no coins, awake, flags down, empty store |
| Pet.Tamagotchi.SaveStats | src/tamagotchi.cpp:241-247 | the store after is `Saved` of the state before |
| Pet.Tamagotchi.LoadStats | src/tamagotchi.cpp:249-255 | the state after is `Loaded` of the state before |
| Pet.Tamagotchi.Initialize | src/tamagotchi.cpp:22-35 | the state after is `InitializeStep` of the state before and the boot store, invariant kept |
| Pet.Tamagotchi.ReadUnlock | src/tamagotchi.cpp:26-28 | only the unlock flag (read from the store) and the minute stamp change |
| Pet.Tamagotchi.SetAwake | src/tamagotchi.cpp:30-34 | only the sleeping flag changes, to false |
| Pet.Tamagotchi.BuyFood | src/tamagotchi.cpp:37-58 | the new state and the result are those of `BuyFoodStep`, invariant kept |
| Pet.Tamagotchi.BuyMemoryGame | src/tamagotchi.cpp:61-75 | the new state and the result are those of `BuyMemoryGameStep`, invariant kept |
| Pet.Tamagotchi.Update | src/tamagotchi.cpp:77-105 | the new state is `UpdateStep` of the old, invariant kept |
| Pet.Tamagotchi.ExpireFlagsAt | src/tamagotchi.cpp:80-93 | the new state is `ExpireFlags` of the old |
| Pet.Tamagotchi.UpdatePerMinute | src/tamagotchi.cpp:107-127 | the new state is `DecayStep` of the old, invariant kept |
| Pet.Tamagotchi.Decay | src/tamagotchi.cpp:110-117 | the new state is `Decayed` of the old |
| Pet.Tamagotchi.StampMinute | src/tamagotchi.cpp:124 | only the minute stamp changes, to `now` |
| Pet.Tamagotchi.Feed | src/tamagotchi.cpp:129-161 | the new state and the result are those of `FeedStep`, invariant kept |
| Pet.Tamagotchi.Play | src/tamagotchi.cpp:163-181 | the new state and the result are those of `PlayStep`, invariant kept |
| Pet.Tamagotchi.Sleep | src/tamagotchi.cpp:183-197 | the new state and the result are those of `SleepStep`, invariant kept |
| Pet.Tamagotchi.WakeUp | src/tamagotchi.cpp:199-209 | the new state is `WakeStep` of the old, invariant kept |
| Pet.Tamagotchi.Rouse | src/tamagotchi.cpp:200-207 | the five assignments of waking, nothing else |
| Pet.Tamagotchi.ShowHappy | src/tamagotchi.cpp:54-55 | only the happy flag (up) and its timer (`now`) change |
| Pet.Tamagotchi.ShowAngry | src/tamagotchi.cpp:141-142 | only the angry flag (up) and its timer change |
| Pet.Tamagotchi.ShowInsufficientCoins | src/tamagotchi.cpp:48-49 | only the insufficient-coins flag (up) and its timer change |
| Pet.Tamagotchi.ClearInsufficientCoins | src/main.cpp:339 | only the insufficient-coins flag changes, to down |
| Pet.Tamagotchi.AddCoins | src/tamagotchi.cpp:211-214 | the new state is `AddCoinsStep` of the old, invariant kept |
| Pet.Tamagotchi.AddBoredom | src/tamagotchi.cpp:216-219 | the new state is `AddBoredomStep` of the old, invariant kept |
| Pet.Tamagotchi.SetHunger | include/tamagotchi.h:8 | the new state is `SetHungerStep` of the old, invariant kept |
| Pet.Tamagotchi.SetSleepiness | include/tamagotchi.h:9 | the new state is `SetSleepinessStep` of the old, invariant kept |
| Pet.Tamagotchi.SetBoredom | include/tamagotchi.h:10 | the new state is `SetBoredomStep` of the old, invariant kept |
| Dodge.BoxesRequired | src/game.cpp:156-163 | getBoxesRequiredForLevel: (level² + level + 8) / 2 dodges complete a level (5, 7, 10, 14 by `BoxesRequiredGrowth`) |
| Dodge.SpawnInterval | src/game.cpp:63 | the time between spawns, max(1000 − 50 · level, 200) ms |
| Dodge.MoveLeftStep | src/game.cpp:77-81 | moveLeft: the lane drops by one unless it is already 0 |
| Dodge.MoveRightStep | src/game.cpp:83-87 | moveRight: the lane rises by one unless it is already 2 |
| Dodge.SpawnStep | src/game.cpp:89-102 | spawnObstacle: below the cap, the lowest inactive slot gets an active obstacle at x = 128 in the rolled lane and the count rises by one; otherwise nothing changes |
| Dodge.UpdateObstaclesStep | src/game.cpp:104-122 | updateObstacles: every active obstacle moves left by the speed; each dodge adds 10 · level to the score and one to the counter; each obstacle past x = −10 becomes inactive and leaves the count |
| Dodge.IncreaseLevelStep | src/game.cpp:147-154 | increaseLevel: one more level, the counter cleared, the speed + 0.3 up to 5.5, the cap min(5, old level + 1) |
| Dodge.Spawned | src/game.cpp:62-66 | the first part of update: once the spawn interval has passed since the last spawn, spawn and restamp the spawn time |
| Dodge.PassDodges | src/game.cpp:68-69 | the number of obstacles the pass of update counts as dodged, after the spawn |
| Dodge.UpdateStep | src/game.cpp:59-75 | update: the spawn, then the pass over the obstacles, then a level-up once the counter reaches the level's quota |
| Dodge.Collision | src/game.cpp:124-145 | checkCollision's test: some active obstacle in the player's lane overlaps the player's span, x < 18 and x + 8 > 10 |
| Dodge.SaveRecordStep | src/game.cpp:33-41 | saveRecord: a level above the record becomes the record and is written to the store; otherwise nothing changes |
| Dodge.ActiveAfterAdvance | src/game.cpp:104-122 | after one pass the number of active slots is the old number minus the obstacles the pass removed |
| Dodge.FirstInactive | src/game.cpp:93-101 | the index found is inactive (or the end), and every slot before it is active |
| Dodge.DodgedIsCrossing | src/game.cpp:107-113 | the dodge test holds exactly when the obstacle was right of x = 10 and the step takes it to x ≤ 10; such an obstacle is still on screen |
| Dodge.AdvanceFalls | src/game.cpp:106-119 | each step moves an active obstacle strictly left, and it stays active exactly when its new x is at least −10 |
| Dodge.ScoredOnceCrossed | src/game.cpp:104-122 | at any speeds in (0, 5.5], an obstacle starting active right of x = 10 has been counted as dodged once exactly when it is no longer active right of x = 10, and never before |
| Dodge.DodgeCountSlot | src/game.cpp:107-113 | the dodge count of a pass is one slot's own dodge test plus the count of the others |
| Dodge.UpdateMovesSlot | src/game.cpp:59-69 | an update leaves an active slot to the spawn untouched, moves it one pass at the game's speed, and counts its dodge test as its term of the update's dodges |
| Dodge.SlotTrajectory | src/game.cpp:59-69 | while a slot stays active over a run of updates, its obstacle is where its passes at the run's speeds put it, and the dodges counted for it are those passes' dodge tests |
| Dodge.RunStaysValid | src/game.cpp:59-75 | every state of a run of updates from a valid state is valid |
| Dodge.ObstacleScoresOnce | src/game.cpp:59-122 | in a run of updates, an obstacle in a slot right of x = 10 (a spawn puts it at x = 128) that leaves the screen is counted as dodged exactly once |
| Dodge.ResetStep | src/game.cpp:43-57 | reset keeps the game's invariant |
| Dodge.MovesStayInLanes | src/game.cpp:77-87 | the player stays in lanes 0..2; left at lane 0 and right at lane 2 change nothing; otherwise the lane moves by one |
| Dodge.SpawnFillsLowestFreeSlot | src/game.cpp:89-102 | under the cap, the lowest inactive slot (all before it active) becomes an active obstacle at x = 128 in the rolled lane, the other slots are unchanged and the count rises by one |
| Dodge.SpawnKeepsValid | src/game.cpp:89-102 | spawning keeps the count equal to the active slots and within the cap |
| Dodge.UpdateObstaclesKeepsValid | src/game.cpp:104-122 | a pass keeps the count equal to the active slots, within the cap, and every active obstacle in a lane and on screen |
| Dodge.IncreaseLevelKeepsValid | src/game.cpp:147-154 | a level-up adds one level, clears the dodge counter, raises the speed by 0.3 up to 5.5 and the cap to min(5, level), keeping the invariant |
| Dodge.UpdateKeepsValid | src/game.cpp:59-75 | a whole update keeps the invariant |
| Dodge.UpdateLevels | src/game.cpp:59-75 | with d the dodges of the update's pass: the level rises by one and the counter restarts at 0 exactly when counter + d reaches the level's quota; otherwise the level stays and the counter becomes counter + d; the score grows by 10 · level · d |
| Dodge.FiveThenSevenStep | src/game.cpp:71-74 | one update dodging at most one obstacle keeps a game on the 5-then-7 schedule |
| Dodge.FiveThenSeven | src/game.cpp:43-75 | from a reset, dodging at most one obstacle per update: below 5 dodges level 1 with counter n and score 10 n; from 5 to 11 level 2 with counter n − 5 and score 50 + 20 (n − 5); at 12 level 3, counter 0, score 190 |
| Dodge.BoxesRequiredGrowth | src/game.cpp:156-163 | the quota is 5, 7, 10, 14 for levels 1 to 4, and grows by level + 1 from one level to the next |
| Dodge.SpawnIntervalBounds | src/game.cpp:63 | the spawn interval is between 200 and 950 ms, never grows with the level, and is 200 from level 16 on |
| Dodge.RecordIsMonotone | src/game.cpp:33-41 | the record becomes max(record, level), so it never decreases |
| Dodge.ResetRestoresStart | src/game.cpp:43-57 | reset gives lane 1, level 1, score 0, speed 2, no active obstacle, a cap of 1, and keeps the record |
| Dodge.DodgeGame.constructor | src/game.cpp:4-19 | the fields of a new game, all slots inactive, invariant holding |
| Dodge.DodgeGame.Initialize | src/game.cpp:21-31 | the record is read from the store, then the game is reset |
| Dodge.DodgeGame.LoadRecord | src/game.cpp:26-31 | only the record changes, to the stored value or 0 |
| Dodge.DodgeGame.SaveRecord | src/game.cpp:33-41 | the new state is `SaveRecordStep` of the old, invariant kept |
| Dodge.DodgeGame.Reset | src/game.cpp:43-57 | the new state is `ResetStep` of the old, invariant kept |
| Dodge.DodgeGame.RestartCounters | src/game.cpp:44-52 | the nine field assignments of reset, nothing else |
| Dodge.DodgeGame.DeactivateAll | src/game.cpp:54-56 | every slot becomes inactive, with position and lane kept |
| Dodge.DodgeGame.Update | src/game.cpp:59-75 | the new state is `UpdateStep` of the old, invariant kept |
| Dodge.DodgeGame.MoveLeft | src/game.cpp:77-81 | the new state is `MoveLeftStep` of the old, invariant kept |
| Dodge.DodgeGame.MoveRight | src/game.cpp:83-87 | the new state is `MoveRightStep` of the old, invariant kept |
| Dodge.DodgeGame.SpawnObstacle | src/game.cpp:89-102 | the in-place search gives `SpawnStep` of the old state, invariant kept |
| Dodge.DodgeGame.UpdateObstacles | src/game.cpp:104-122 | the in-place pass gives `UpdateObstaclesStep` of the old state (each slot advanced, score + 10 · level per dodge, counter + 1 per dodge, count − 1 per removal), invariant kept |
| Dodge.DodgeGame.CheckCollision | src/game.cpp:124-145 | true exactly when some active obstacle is in the player's lane with x < 18 and x + 8 > 10 |
| Dodge.DodgeGame.IncreaseLevel | src/game.cpp:147-154 | the new state is `IncreaseLevelStep` of the old, invariant kept |
| Memory.PlayStep | src/memorygame.cpp:71-76 | playSequence: the index back to 0, input awaited, the input time stamped |
| Memory.IncreaseLevelStep | src/memorygame.cpp:78-81 | increaseLevel: one more level, the timeout 200 ms shorter but at least 1000 ms |
| Memory.GameOverStep | src/memorygame.cpp:83-86 | checkGameOver: input is no longer awaited |
| Memory.AddStep | src/memorygame.cpp:40-45 | appending a symbol in 0..2 keeps the invariant |
| Memory.ResetStep | src/memorygame.cpp:18-28 | reset gives a valid game whose sequence is as long as its level |
| Memory.UpdateStep | src/memorygame.cpp:30-38 | the timeout check keeps the invariant |
| Memory.RegisterStep | src/memorygame.cpp:47-69 | any input keeps the invariant: the symbols stay in 0..2 and, while input is awaited, the index stays below the length |
| Memory.ResetStartsRound | src/memorygame.cpp:18-28 | after reset: one symbol (the roll), level 1, score 0, index 0, awaiting input since `now`, timeout kept from before |
| Memory.IgnoredWhenNotWaiting | src/memorygame.cpp:48 | an input while not awaiting input changes nothing |
| Memory.CorrectInputAdvances | src/memorygame.cpp:53-56 | a correct input before the last symbol adds 10 and moves the index by one; level, sequence and input time stay |
| Memory.CorrectInputCompletesRound | src/memorygame.cpp:57-65 | the correct last input adds 10, resets the index, appends the roll while the length is below 20, raises the level, lowers the timeout by 200 to at least 1000, and awaits input from `now` + 1000 |
| Memory.WrongInputEndsGame | src/memorygame.cpp:66-68 | a wrong input at any index ends the game, recording only the last input |
| Memory.StartedIsInvariant | src/memorygame.cpp:40-69 | sequence length = min(level, 20) is kept by every input and by the timeout check |
| Memory.UpdateTimesOut | src/memorygame.cpp:30-38 | the game stops awaiting input exactly when it was awaiting and the timeout has elapsed; nothing else changes |
| Memory.TimeoutShrinks | src/memorygame.cpp:78-81 | after k calls of `increaseLevel()` (one per completed round, see `CorrectInputCompletesRound`) the level is k higher and the timeout is max(t − 200 k, 1000) |
| Memory.RegisterAll | src/memorygame.cpp:47-69 | any sequence of inputs keeps the invariant |
| Memory.RepeatingCompletesRound | src/memorygame.cpp:47-69 | entering the rest of the sequence correctly completes the round: score + 10 per symbol, level + 1, one more symbol (up to 20), the old symbols kept, index 0, awaiting input |
| Memory.MemoryGame.constructor | src/memorygame.cpp:3-12 | the fields of a new game, invariant holding |
| Memory.MemoryGame.Reset | src/memorygame.cpp:18-28 | the new state is `ResetStep` of the old, invariant kept |
| Memory.MemoryGame.Update | src/memorygame.cpp:30-38 | the new state is `UpdateStep` of the old, invariant kept |
| Memory.MemoryGame.AddToSequence | src/memorygame.cpp:40-45 | the in-place append gives `AddStep` of the old state |
| Memory.MemoryGame.RegisterInput | src/memorygame.cpp:47-69 | the new state is `RegisterStep` of the old, invariant kept |
| Memory.MemoryGame.PlaySequence | src/memorygame.cpp:71-76 | only the index (0), the waiting flag (up) and the input time change |
| Memory.MemoryGame.IncreaseLevel | src/memorygame.cpp:78-81 | only the level (+1) and the timeout (−200, at least 1000) change |
| Memory.MemoryGame.CheckGameOver | src/memorygame.cpp:83-86 | only the waiting flag changes, to false |
| TicTacToe.AfterMove | src/tictactoe.cpp:102-112 | the common tail of a move: the new board, one more move counted, the game result checked, and the turn handed over unless the game is over |
| TicTacToe.ResetStep | src/tictactoe.cpp:39-63 | reset: an empty board, the cursor at (1, 1), no moves and no result; the roll 0 lets the player start |
| TicTacToe.MoveCursorStep | src/tictactoe.cpp:81-95 | moveCursor: the cursor goes to the cell where the search for an empty cell stops |
| TicTacToe.PlaceStep | src/tictactoe.cpp:97-114 | tryPlacePiece: refused off the player's turn or on a filled cell; otherwise the player's piece goes under the cursor and the move is completed |
| TicTacToe.UpdateStep | src/tictactoe.cpp:65-79 | update: on the pet's turn the pet moves and the move is completed; otherwise nothing changes |
| TicTacToe.Saved | src/tictactoe.cpp:22-26 | saveStats: the three counters written to the store under their keys |
| TicTacToe.Loaded | src/tictactoe.cpp:16-20 | loadStats: the three counters read from the store, 0 when absent |
| TicTacToe.UpdateStatsStep | src/tictactoe.cpp:28-37 | updateStats: the counter of the result rises by one, then the counters are saved |
| TicTacToe.WonByLine | src/tictactoe.cpp:328-354 | a side owns some line exactly when it owns one of the three rows, three columns or two diagonals |
| TicTacToe.CheckWinner | src/tictactoe.cpp:328-354 | true exactly when the side owns a whole line |
| TicTacToe.IsBoardFull | src/tictactoe.cpp:356-365 | true exactly when all nine cells are filled |
| TicTacToe.CheckGameOver | src/tictactoe.cpp:367-381 | player win exactly when the player owns a line; pet win exactly when the pet does and the player does not; draw exactly when neither does and the board is full; no result otherwise |
| TicTacToe.FirstCompletable | src/tictactoe.cpp:137-219 | the first line, in the source's order, holding two of the side's pieces and one empty cell, with no such line before it |
| TicTacToe.CompletionCell | src/tictactoe.cpp:137-219 | the cell the pet takes is on the board and empty |
| TicTacToe.RandomStep | src/tictactoe.cpp:304-326 | the random move leaves a nine-cell board |
| TicTacToe.PetMove | src/tictactoe.cpp:116-135 | the pet's move leaves a nine-cell board |
| TicTacToe.ScanDistance | src/tictactoe.cpp:81-95 | the search takes at most 9 steps, stops on an empty cell or after 9, and passes only filled cells on the way |
| TicTacToe.Scan | src/tictactoe.cpp:81-95 | the search ends on a cell of the board |
| TicTacToe.GameOverPriorities | src/tictactoe.cpp:367-381 | a player line wins even when the pet also has one; a draw is exactly a full board without a line for either side |
| TicTacToe.EmptyBoardIsOpen | src/tictactoe.cpp:39-45 | the cleared board lists all nine cells as empty and has no result |
| TicTacToe.ResetStartsGame | src/tictactoe.cpp:39-63 | reset gives a valid game with an empty board, the cursor at (1, 1), no moves, no result, and the player's turn exactly when the roll is 0, else the pet's |
| TicTacToe.CompletionFillsLine | src/tictactoe.cpp:137-302 | filling the empty cell of the pet's first completable line gives the pet that whole line; a block of the player's first completable line leaves its two player pieces with no empty cell in the line |
| TicTacToe.PetTakesWin | src/tictactoe.cpp:116-121 | with a winning cell available the pet takes it whatever the rolls, and then owns a line |
| TicTacToe.PetBlocksOnlyByRoll | src/tictactoe.cpp:123-133 | without a win, the pet blocks the first line with two player pieces exactly when the roll is below 85 and such a line exists; otherwise it plays the random move |
| TicTacToe.PetMoveFillsOneCell | src/tictactoe.cpp:116-135 | on a board with an empty cell the pet's move turns exactly one empty cell into a pet piece and adds one filled cell |
| TicTacToe.PlaceContract | src/tictactoe.cpp:97-114 | a piece is placed exactly on the player's turn on an empty cursor cell; otherwise nothing changes; a placement fills only that cell, counts one move and ends the game exactly when the board has a result, else passes the turn to the pet; the invariant holds |
| TicTacToe.UpdateKeepsValid | src/tictactoe.cpp:65-79 | update keeps the invariant (moves = filled cells); off the pet's turn it changes nothing; on it, the turn passes to the player or the game ends |
| TicTacToe.FullBoardScan | src/tictactoe.cpp:81-95 | on a full board the search takes 9 steps and ends where it started |
| TicTacToe.CursorMoves | src/tictactoe.cpp:81-95 | the cursor lands on the first empty cell after it in cyclic row-major order, and stays where it was on a full board |
| TicTacToe.MoveCursorKeepsValid | src/tictactoe.cpp:81-95 | moving the cursor changes only the cursor, which stays on the board |
| TicTacToe.StatsCountOneOutcome | src/tictactoe.cpp:28-37 | exactly one counter rises by one for a result and none for no result; the invariant holds |
| TicTacToe.LoadAfterSave | src/tictactoe.cpp:16-26 | loading right after saving changes nothing, so the three counters come back as saved |
| TicTacToe.TicTacToeGame.constructor | src/tictactoe.cpp:3-8 | zero counters, then a reset game |
| TicTacToe.TicTacToeGame.Initialize | src/tictactoe.cpp:10-14 | the counters are read from the store, then the game is reset |
| TicTacToe.TicTacToeGame.LoadStats | src/tictactoe.cpp:16-20 | the new state is `Loaded` of the old |
| TicTacToe.TicTacToeGame.SaveStats | src/tictactoe.cpp:22-26 | the new state is `Saved` of the old |
| TicTacToe.TicTacToeGame.UpdateStats | src/tictactoe.cpp:28-37 | the new state is `UpdateStatsStep` of the old, invariant kept |
| TicTacToe.TicTacToeGame.Reset | src/tictactoe.cpp:39-63 | the new state is `ResetStep` of the old, invariant kept |
| TicTacToe.TicTacToeGame.ClearBoard | src/tictactoe.cpp:40-45 | the nested loops leave every cell empty |
| TicTacToe.TicTacToeGame.Update | src/tictactoe.cpp:65-79 | the new state is `UpdateStep` of the old, invariant kept |
| TicTacToe.TicTacToeGame.MoveCursor | src/tictactoe.cpp:81-95 | the new state is `MoveCursorStep` of the old, invariant kept |
| TicTacToe.TicTacToeGame.Search | src/tictactoe.cpp:83-94 | the loop stops after 1 to 9 steps on the first empty cell, or after 9 steps, having seen only filled cells |
| TicTacToe.TicTacToeGame.Advance | src/tictactoe.cpp:85-92 | one cursor step, wrapping from (2, 2) to (0, 0), stays on the board |
| TicTacToe.TicTacToeGame.TryPlacePiece | src/tictactoe.cpp:97-114 | the new state and the result are those of `PlaceStep`, invariant kept |
| TicTacToe.TicTacToeGame.TamagotchiMove | src/tictactoe.cpp:116-135 | the board becomes `PetMove` of the old board and one move is counted; nothing else changes |
| TicTacToe.TicTacToeGame.TryToWin | src/tictactoe.cpp:137-219 | a piece is placed exactly when the pet can complete a line, in the empty cell of the first such line |
| TicTacToe.TicTacToeGame.TryToBlock | src/tictactoe.cpp:221-302 | a piece is placed exactly when the player could complete a line, in the empty cell of the first such line |
| TicTacToe.TicTacToeGame.TryComplete | src/tictactoe.cpp:141-216 | the counting loops over the eight lines find the first line with two of a side's pieces and one empty cell, and fill that cell with a pet piece |
| TicTacToe.TicTacToeGame.RandomMove | src/tictactoe.cpp:304-326 | the board after is `RandomStep` of the board before |
| Tap.SpawnStep | src/tapgame.cpp:36-41 | spawnTarget: an active target at (30 + rx, 20 + ry), stamped with the spawn time |
| Tap.IncreaseLevelStep | src/tapgame.cpp:54-57 | increaseLevel: one more level, the waiting time 200 ms shorter but at least 500 ms |
| Tap.TapStep | src/tapgame.cpp:43-52 | registerTap: an active target adds 10 · level and disappears, and a positive multiple of 100 raises the level; without a target nothing changes |
| Tap.UpdateStep | src/tapgame.cpp:26-34 | update: with no target and the waiting time passed since the last spawn, a new target spawns |
| Tap.ResetStep | src/tapgame.cpp:17-24 | reset: score 0, level 1, waiting time 2000, the start time stamped, and a target spawned |
| Tap.ResetStartsGame | src/tapgame.cpp:17-24 | after reset: score 0, level 1, waiting time 2000, an active target spawned at `now`, invariant holding |
| Tap.TapScores | src/tapgame.cpp:43-52 | a tap on an active target adds 10 · level and removes the target; with no target nothing changes |
| Tap.LevelRisesOnHundreds | src/tapgame.cpp:43-57 | the level rises by one exactly on a tap that lands the score on a positive multiple of 100, else level and waiting time stay; the score stays a multiple of 10; the waiting time stays in 500..2000 |
| Tap.DifficultyBounds | src/tapgame.cpp:54-57 | the waiting time is in 500..2000, each level takes 200 off it down to 500, and it is 500 from level 9 on |
| Tap.UpdateSpawns | src/tapgame.cpp:26-41 | a target appears exactly when there was none and the waiting time has passed, at x in 30..97 and y in 20..49; otherwise nothing changes |
| Tap.TapGame.constructor | src/tapgame.cpp:3-11 | the fields of a new game |
| Tap.TapGame.Reset | src/tapgame.cpp:17-24 | the new state is `ResetStep` of the old, invariant kept |
| Tap.TapGame.Update | src/tapgame.cpp:26-34 | the new state is `UpdateStep` of the old, invariant kept |
| Tap.TapGame.SpawnTarget | src/tapgame.cpp:36-41 | the new state is `SpawnStep` of the old |
| Tap.TapGame.RegisterTap | src/tapgame.cpp:43-52 | the new state is `TapStep` of the old, invariant kept |
| Tap.TapGame.IncreaseLevel | src/tapgame.cpp:54-57 | the new state is `IncreaseLevelStep` of the old |
| App.MemoryReward | src/main.cpp:715-716 | the memory game's coins at level l, l (l + 1) / 2 |
| App.DodgeReward | src/main.cpp:672-676 | the dodge game's coins at level l, the memory reward plus 2 (l − 1) after level 1 |
| App.StartGameStep | src/main.cpp:634-641 | startGame: the dodge game is running from a reset, with its start time stamped |
| App.StartMemoryGameStep | src/main.cpp:694-702 | startMemoryGame: the memory game is running from a reset, with its start time stamped |
| App.EndGameStep | src/main.cpp:664-692 | endGame: the game stops, the record is saved, and the dodge reward goes into coins and boredom with the happy face |
| App.EndMemoryGameStep | src/main.cpp:711-735 | endMemoryGame: the game stops and the memory reward goes into coins and boredom with the happy face |
| App.UpdateGameStep | src/main.cpp:643-652 | updateGame: one dodge update, then the game ends on a collision |
| App.SleepingInput | src/main.cpp:417-435 | a sleeping pet: any release wakes it |
| App.DodgeInput | src/main.cpp:437-464 | the dodge game: Left and Right move the player, Enter ends the game |
| App.MemoryInput | src/main.cpp:465-507 | the memory game: while input is awaited Left, Enter and Right enter the symbols 0, 1 and 2; otherwise Enter ends the game |
| App.GameMenuInput | src/main.cpp:508-558 | the game menu: Left and Right cycle through the unlocked games; Enter plays with the pet, closes the menu, and starts the selected game when the play succeeds |
| App.MainMenuInput | src/main.cpp:559-616 | the main menu: Left and Right cycle through the three entries; Enter opens the shop or the game menu at entry 0, or puts the pet to sleep and closes the menu |
| App.MainViewInput | src/main.cpp:617-631 | the plain view: Enter on an awake pet opens the main menu at entry 0 |
| App.HandleStep | src/main.cpp:410-632 | handleButtons: the event goes to the first of the sleeping pet, the dodge game, the memory game, the game menu, the main menu and the plain view that applies |
| App.Purchase | src/main.cpp:332-350 | the purchase of a shop entry: entry 4 buys the memory game while it is locked; every other entry buys that food |
| App.ShopInput | src/main.cpp:303-367 | the shop's controls: Left and Right cycle through the five or four entries, restarting the timeout; Enter buys the selected entry |
| App.ShopSelectStep | src/main.cpp:331-362 | a shop purchase: success clears the message, closes the shop and puts entry 4 back to 0; failure keeps the shop open under the insufficient-coins message |
| App.ScreenStep | src/main.cpp:255-398 | the screen part of loop: the shop's controls and timeout, the message, the running games, and the menus closing after 5000 idle ms |
| App.LoopStep | src/main.cpp:140-399 | loop: the pet's tick, then nothing under a face; otherwise handleButtons or the shop takes the event, and the screens advance |
| App.MemoryRewardExact | src/main.cpp:716 | the reward's division by 2 is exact, and the reward at level l + 1 is the one at l plus l + 1 |
| App.RewardTable | src/main.cpp:672-676 | both rewards are at least 1; the dodge reward is the memory reward plus 2(l − 1), grows by l + 3 per level, and is 1, 5, 10 at levels 1 to 3, against 1, 3, 6 for the memory reward |
| App.DodgeCoins | src/main.cpp:672-676 | the arithmetic of the dodge reward computes `DodgeReward` of the final level |
| App.MemoryCoins | src/main.cpp:715-716 | the arithmetic of the memory reward computes `MemoryReward` of the final level |
| App.PetTick | src/main.cpp:144-148 | the pet's tick every 500 ms keeps the controller's invariant |
| App.EndGameKeepsValid | src/main.cpp:664-692 | ending the dodge game keeps the invariant |
| App.EndMemoryGameKeepsValid | src/main.cpp:711-735 | ending the memory game keeps the invariant |
| App.SleepingInputKeepsValid | src/main.cpp:417-435 | waking the pet by a button keeps the invariant |
| App.DodgeInputKeepsValid | src/main.cpp:437-464 | the dodge game's buttons keep the invariant |
| App.MemoryInputKeepsValid | src/main.cpp:465-507 | the memory game's buttons keep the invariant |
| App.GameMenuInputKeepsValid | src/main.cpp:508-558 | the game menu's buttons keep the invariant |
| App.MainMenuInputKeepsValid | src/main.cpp:559-616 | the main menu's buttons keep the invariant |
| App.HandleKeepsValid | src/main.cpp:410-632 | handleButtons keeps the invariant: every index in its menu, at most one screen up, the memory game running only once bought |
| App.ShopInputKeepsValid | src/main.cpp:303-362 | the shop's controls keep the invariant, including when a purchase shrinks the shop to four entries |
| App.UpdateGameKeepsValid | src/main.cpp:643-652 | a step of the running dodge game keeps the invariant |
| App.ScreenKeepsValid | src/main.cpp:255-398 | the screen part of the loop keeps the invariant |
| App.LoopKeepsValid | src/main.cpp:140-399 | every loop iteration keeps the invariant |
| App.MainMenuWraps | src/main.cpp:565-581 | Left from 0 gives 2, Right from 2 gives 0, otherwise the option moves by one; only the option and the menu time change |
| App.MainMenuEnter | src/main.cpp:584-610 | the menu closes; 0 opens the shop at entry 0 and 1 the game menu at entry 0, each restarting the timeout and leaving the pet alone; 2 asks the pet to sleep and opens nothing |
| App.GameMenuWraps | src/main.cpp:510-532 | the option stays below the number of unlocked games (always 0 while the memory game is locked); only the option and the menu time change |
| App.GameMenuStarts | src/main.cpp:535-554 | on an awake pet Enter plays with the pet, closes the menu, and starts the dodge game (entry 0) or the memory game (entry 1) from reset at `now` |
| App.ShopWraps | src/main.cpp:313-328 | the option stays below the item count (5 locked, 4 unlocked), wrapping at both ends; only the option and the menu time change |
| App.ShopEnter | src/main.cpp:331-362 | success closes the shop with the happy face and no message; failure keeps it open under the message at `now`, with coins, hunger and option kept; entry 4 buys the locked memory game exactly when coins ≥ 50, then returns to entry 0; a food entry succeeds exactly when coins cover its cost |
| App.OverlayBlocksInput | src/main.cpp:228-245 | with the angry or happy face up after the tick, the iteration changes nothing else |
| App.MessageBlocksInput | src/main.cpp:250-265 | under the insufficient-coins message the event is dropped; only the shop's timeout can act |
| App.ShopOwnsInput | src/main.cpp:255-373 | while the shop is open handleButtons is skipped and the event goes to the shop's controls, followed by its timeout |
| App.SleepingPetWakes | src/main.cpp:417-435 | a sleeping pet ignores no-event iterations and wakes on any release, with nothing else handled |
| App.MenuTimeout | src/main.cpp:384-395 | with no event a menu stays open exactly while it has been idle for at most 5000 ms; nothing else changes |
| App.RewardsPaid | src/main.cpp:664-735 | ending a game pays its reward into the coins and, capped at 100, into the boredom, and shows the happy face; the dodge game's record becomes max(record, level) |
| App.Controller.constructor | src/main.cpp:21-37 | the globals at power-on: a new pet, no screen up, every index 0 |
| App.Controller.StartGame | src/main.cpp:634-641 | the new state is `StartGameStep` of the old |
| App.Controller.StartMemoryGame | src/main.cpp:694-702 | the new state is `StartMemoryGameStep` of the old |
| App.Controller.EndGame | src/main.cpp:664-692 | the new state is `EndGameStep` of the old |
| App.Controller.EndMemoryGame | src/main.cpp:711-735 | the new state is `EndMemoryGameStep` of the old |
| App.Controller.PayReward | src/main.cpp:677-689 | the pet after is `Rewarded`: coins and boredom relief, then the happy face |
| App.Controller.UpdateGame | src/main.cpp:643-652 | the new state is `UpdateGameStep` of the old |
| App.Controller.UpdateMemoryGame | src/main.cpp:704-709 | only the memory game changes, by its `UpdateStep` |
| App.Controller.HandleSleeping | src/main.cpp:417-435 | the new state is `SleepingInput` of the old |
| App.Controller.HandleDodge | src/main.cpp:437-464 | the new state is `DodgeInput` of the old |
| App.Controller.HandleMemory | src/main.cpp:465-507 | the new state is `MemoryInput` of the old |
| App.Controller.HandleGameMenu | src/main.cpp:508-558 | the new state is `GameMenuInput` of the old |
| App.Controller.HandleMainMenu | src/main.cpp:559-616 | the new state is `MainMenuInput` of the old |
| App.Controller.MainMenuSelect | src/main.cpp:584-612 | the new state is `MainMenuInput` of the old for Enter |
| App.Controller.HandleMainView | src/main.cpp:617-631 | the new state is `MainViewInput` of the old |
| App.Controller.HandleButtons | src/main.cpp:410-632 | the new state is `HandleStep` of the old, invariant kept |
| App.Controller.ShopControls | src/main.cpp:303-367 | the new state is `ShopInput` of the old |
| App.Controller.ShopSelect | src/main.cpp:331-362 | the new state is `ShopSelectStep` of the old |
| App.Controller.Buy | src/main.cpp:332-350 | the pet and the result are those of `Purchase` for the selected entry |
| App.Controller.AdvanceScreen | src/main.cpp:255-398 | the new state is `ScreenStep` of the old, invariant kept |
| App.Controller.ShopScreen | src/main.cpp:256-373 | the new state is `ScreenStep` of the old with the shop up |
| App.Controller.TickPet | src/main.cpp:144-148 | the new state is `PetTick` of the old |
| App.Controller.Loop | src/main.cpp:140-399 | the new state is `LoopStep` of the old, invariant kept |

## Left out

- Rendering (src/display.cpp and every `displayMgr` call), the eye animation (src/eyes.cpp) and
  audio (`playHappySound`, `playAngrySound`, `playSound`, `playBeep`) are not part of this model.
  They draw pixels or make sounds and change no engine state.
- `setup()`, the serial port and logging are not part of this model, and neither is the display
  start-up. The engines' `Initialize` methods model what `setup()` asks of them.
- Button reading: `digitalRead`, debouncing and the static edge-detection locals are replaced by
  one abstract event per loop iteration. It is a release for the menus and the shop, and a press
  for the two games. Two buttons in one iteration are not modelled. The shop's handler sees no
  event in an iteration whose buttons `handleButtons` already took.
- The Enter test at the end of `updateGame()` (src/main.cpp:655-661) is not modelled. In the model
  the iteration's one event is already taken by `handleButtons`, which ends the game on Enter.
- Busy waits and `delay()` are not modelled. The 3000 ms game-over screen of `endGame()` is
  modelled as the happy face raised at `now + 3000`. The 200 ms wait of `endMemoryGame()` is
  skipped. The 1000 ms pause before the next memory round is modelled as the round's input clock
  starting at `now + 1000`. The 500 ms pause in the tic-tac-toe update is dropped.
- The test mode (src/main.cpp:150-226 and 268-301) is not modelled: the three-button toggle and
  the hold timers. Those timers call the clamped setters, which are modelled, and `setCoins`,
  which does not exist in the source.
- Floating point: obstacle positions and the speed are exact reals, with no float rounding.
- `millis()` wrap-around is not modelled: the clock is a monotone `nat`, and unsigned differences
  are ordinary subtraction.
- Probability: the 85% block is a roll in 0..99 compared with 85, and every other `random()` call
  is a bounded parameter.
- Fields the source leaves uninitialised (the obstacles' positions and lanes, the memory symbols,
  the tap game's `spawnTime`) start at 0.
- The unused `lastUpdateTime` of the dodge game is kept but has no property. The tap game
  header's `targetTime` (include/tapgame.h:10) is not modelled: the source declares it but
  never sets or reads it.
- The tic-tac-toe board `board[3][3]` is a flat nine-cell array, where cell (y, x) is index
  3y + x.
- `TicTacToe.TicTacToeGame.TryComplete` runs the rows, columns and two diagonals of `tryToWin`
  and `tryToBlock` as one loop over the eight lines, in the same order. It keeps the last empty
  cell seen in each line, as the source's loops do.
- Some of the source's assignments are grouped into small helper methods that state their own
  effect, because that keeps the proofs small: `Rouse`, `Decay`, `StampMinute`, `ReadUnlock`,
  `SetAwake`, `ExpireFlagsAt`, the `Show…` flag setters, `RestartCounters`, `DeactivateAll`,
  `Search`, `Advance`, `PlaceCursor`, `PayReward` and `Buy`. `Dodge.DodgeGame.UpdateObstacles`
  adds up the score, the dodge counter and the active count in local variables and writes them
  once after the loop, which leaves the same final state. In
  `App.Controller.ShopSelect` the flag and timer writes of a failed purchase come after the
  `menuOpenTime` write; they touch different variables, so the result is the same.
- The `Preferences` namespaces are in-memory maps: the pet's keys are an enumeration, and the
  games use their string keys. Flash storage and opening or closing a namespace are not
  modelled.
- The tic-tac-toe and tap games are modelled as engines only, because `main.cpp` does not use
  them.
- `initialize()` of the memory and tap games is just `reset()`, which is what is modelled.
- The `include/memorygame.h` Morse-code interface has no implementation and is not part of this
  model.
- App.Controller.constructor: states the pet's initial state, the screen flags and the menu
  indices, but not the initial states of the dodge and memory engines. Those are stated by
  `Dodge.DodgeGame.constructor` and `Memory.MemoryGame.constructor`.
- The `handleButtons` sub-handlers (`HandleSleeping` … `HandleMainView`), `ShopControls`,
  `ShopSelect`, `ShopScreen`, `TickPet`, `EndGame`, `EndMemoryGame` and `UpdateGame` state
  their new state as a step function of the old one, without restating the invariant. The
  invariant is proved for those step functions by the `…KeepsValid` lemmas, and `HandleButtons`,
  `AdvanceScreen` and `Loop` ensure it.
- Integer width: the coins, the scores, `boxesDodgedThisLevel` and the tic-tac-toe counters are
  C `int`s that could overflow (src/tamagotchi.cpp:211-214, src/game.cpp:109-113,
  src/tapgame.cpp:43-52, src/tictactoe.cpp:29-35); in the model they are unbounded integers.
- StoreOk, RecordStored and StatsStored: the boot-time loads assume the store holds only values
  this firmware wrote (in range, of the right type), while the source reads flash without
  checking it (src/tamagotchi.cpp:22-35).
