/** The controller of src/main.cpp: which screen owns the buttons (overlays, shop, sleeping pet,
    the two games, the game menu, the main menu, the plain view), the cyclic selection indices
    with their 5000 ms timeout, the wiring of purchases and game entry to the pet, and the coin
    rewards paid when a game ends.  Each loop iteration sees at most one button event. */
module App {
  import Pet
  import Dodge
  import Memory

  const MENU_TIMEOUT: int := 5000
  const PET_UPDATE_PERIOD: int := 500
  const MENU_ITEMS: int := 3           // shop, play, sleep
  const MEMORY_ITEM: int := 4          // the shop entry that unlocks the memory game
  const GAME_OVER_PAUSE: int := 3000   // the game-over screen's busy wait before the happy face

  /** The button event of one loop iteration: a release for the menus, a press for the games. */
  datatype Input = NoInput | LeftButton | EnterButton | RightButton

  /** The random draws one iteration may need: the lane of a new obstacle and the next symbol of
      the memory sequence. */
  predicate RollsOk(lane: int, symbol: int)
  {
    0 <= lane < Dodge.NUM_LANES && 0 <= symbol < Memory.NUM_BUTTONS
  }

  // ---------------------------------------------------------------------------------------------
  // Rewards.

  /** The coins a memory game pays at level `l`: the triangular number of the level. */
  function MemoryReward(l: int): int
  {
    (l * (l + 1)) / 2
  }

  /** The coins a dodge game pays at level `l`: the triangular number plus 2 per level after
      the first. */
  function DodgeReward(l: int): int
  {
    MemoryReward(l) + (if l > 1 then 2 * (l - 1) else 0)
  }

  /** The division in the reward is exact: twice the memory reward is l * (l + 1). */
  lemma {:induction false} MemoryRewardExact(l: nat)
    ensures 2 * MemoryReward(l) == l * (l + 1)
    ensures MemoryReward(l + 1) == MemoryReward(l) + l + 1
  {
    assert (l + 1) * (l + 2) == l * (l + 1) + 2 * (l + 1);
    if l > 0 {
      MemoryRewardExact(l - 1);
    }
  }

  /** The dodge reward is 1 at level 1, 5 at level 2, and grows by l + 3 from level l >= 1;
      it always exceeds the memory reward by 2 * (l - 1). */
  lemma RewardTable(l: nat)
    requires l >= 1
    ensures DodgeReward(l) >= 1 && MemoryReward(l) >= 1
    ensures DodgeReward(l) == MemoryReward(l) + 2 * (l - 1)
    ensures DodgeReward(l + 1) == DodgeReward(l) + l + 3
    ensures DodgeReward(1) == 1 && DodgeReward(2) == 5 && DodgeReward(3) == 10
    ensures MemoryReward(1) == 1 && MemoryReward(2) == 3 && MemoryReward(3) == 6
  {
    MemoryRewardExact(l);
    MemoryRewardExact(l - 1);
  }

  /** The arithmetic of endGame(): the triangular number of the final level, plus 2 coins for
      each level after the first. */
  method DodgeCoins(finalLevel: int) returns (coinsEarned: int)
    requires finalLevel >= 1
    ensures coinsEarned == DodgeReward(finalLevel) && coinsEarned >= 1
  {
    coinsEarned := (finalLevel * (finalLevel + 1)) / 2;
    if finalLevel > 1 {
      coinsEarned := coinsEarned + 2 * (finalLevel - 1);
    }
    RewardTable(finalLevel);
  }

  /** The arithmetic of endMemoryGame(). */
  method MemoryCoins(finalLevel: int) returns (coinsEarned: int)
    requires finalLevel >= 1
    ensures coinsEarned == MemoryReward(finalLevel) && coinsEarned >= 1
  {
    coinsEarned := (finalLevel * (finalLevel + 1)) / 2;
    RewardTable(finalLevel);
  }

  // ---------------------------------------------------------------------------------------------
  // The controller's state.

  function TotalGames(p: Pet.PetView): int
  {
    if p.memoryGameUnlocked then 2 else 1
  }

  function TotalShopItems(p: Pet.PetView): int
  {
    if p.memoryGameUnlocked then 4 else 5
  }

  /** Left from 0 wraps to the last option; Right from the last wraps to 0. */
  function Previous(o: int, total: int): int
  {
    if o - 1 < 0 then total - 1 else o - 1
  }

  function Next(o: int, total: int): int
  {
    if o + 1 >= total then 0 else o + 1
  }

  datatype AppView = AppView(
    pet: Pet.PetView, dodge: Dodge.DodgeView, memory: Memory.MemoryView,
    lastUpdateTime: int, gameStartTime: int, menuOpenTime: int,
    inGame: bool, inMemoryGame: bool, showMenu: bool, showGameMenu: bool, showShopMenu: bool,
    menuOption: int, gameMenuOption: int, shopMenuOption: int)
  {
    /** At most one of the five screens is up at a time. */
    function Screens(): int
    {
      (if inGame then 1 else 0) + (if inMemoryGame then 1 else 0) + (if showMenu then 1 else 0)
      + (if showGameMenu then 1 else 0) + (if showShopMenu then 1 else 0)
    }

    /** The engines keep their invariants, every selection index is inside its menu, one screen
        at most is up, and the memory game only runs once it has been bought. */
    predicate Valid()
    {
      && pet.Valid() && dodge.Valid() && memory.Valid()
      && 0 <= menuOption < MENU_ITEMS
      && 0 <= gameMenuOption < TotalGames(pet)
      && 0 <= shopMenuOption < TotalShopItems(pet)
      && Screens() <= 1
      && (inMemoryGame ==> pet.memoryGameUnlocked)
    }
  }

  // ---------------------------------------------------------------------------------------------
  // Game entry and exit.

  /** startGame() */
  function StartGameStep(v: AppView, now: int): AppView
  {
    v.(inGame := true, gameStartTime := now, dodge := Dodge.ResetStep(v.dodge, now))
  }

  /** startMemoryGame() */
  function StartMemoryGameStep(v: AppView, now: int, symbol: int): AppView
    requires v.memory.Valid() && 0 <= symbol < Memory.NUM_BUTTONS
  {
    v.(inMemoryGame := true, gameStartTime := now, memory := Memory.ResetStep(v.memory, now, symbol))
  }

  /** The reward paid into the pet: coins and boredom both rise by `coins`, then the happy face
      shows. */
  function Rewarded(p: Pet.PetView, coins: int, now: int): Pet.PetView
  {
    Pet.Happy(Pet.AddBoredomStep(Pet.AddCoinsStep(p, coins), coins), now)
  }

  /** endGame(): keep the record, pay the dodge reward, and show the happy face once the
      game-over screen has been up for 3000 ms. */
  function EndGameStep(v: AppView, now: int): AppView
  {
    var d := Dodge.SaveRecordStep(v.dodge);
    v.(inGame := false, dodge := d, pet := Rewarded(v.pet, DodgeReward(d.level), now + GAME_OVER_PAUSE))
  }

  /** endMemoryGame() */
  function EndMemoryGameStep(v: AppView, now: int): AppView
  {
    v.(inMemoryGame := false, pet := Rewarded(v.pet, MemoryReward(v.memory.level), now))
  }

  /** updateGame(): advance the dodge game and end it on a collision. */
  function UpdateGameStep(v: AppView, now: int, lane: int): AppView
  {
    var w := v.(dodge := Dodge.UpdateStep(v.dodge, now, lane));
    if Dodge.Collision(w.dodge) then EndGameStep(w, now) else w
  }

  // ---------------------------------------------------------------------------------------------
  // handleButtons, one screen at a time.

  /** A sleeping pet: any release wakes it, nothing else happens. */
  function SleepingInput(v: AppView, now: int, ev: Input): AppView
  {
    if ev == NoInput then v else v.(pet := Pet.WakeStep(v.pet, now))
  }

  /** The dodge game: Left and Right move the player, Enter quits. */
  function DodgeInput(v: AppView, now: int, ev: Input): AppView
  {
    match ev
    case NoInput => v
    case LeftButton => v.(dodge := Dodge.MoveLeftStep(v.dodge))
    case RightButton => v.(dodge := Dodge.MoveRightStep(v.dodge))
    case EnterButton => EndGameStep(v, now)
  }

  /** The memory game: while input is awaited the three buttons are the symbols 0, 1, 2;
      otherwise Enter quits. */
  function MemoryInput(v: AppView, now: int, ev: Input, symbol: int): AppView
    requires v.memory.Valid() && 0 <= symbol < Memory.NUM_BUTTONS
  {
    if v.memory.waitingForInput then
      match ev
      case NoInput => v
      case LeftButton => v.(memory := Memory.RegisterStep(v.memory, 0, now, symbol))
      case EnterButton => v.(memory := Memory.RegisterStep(v.memory, 1, now, symbol))
      case RightButton => v.(memory := Memory.RegisterStep(v.memory, 2, now, symbol))
    else if ev == EnterButton then EndMemoryGameStep(v, now)
    else v
  }

  /** The game menu: Left and Right cycle through the unlocked games; Enter plays with the pet
      and, when that succeeds, starts the selected game.  The menu closes either way. */
  function GameMenuInput(v: AppView, now: int, ev: Input, symbol: int): AppView
    requires v.memory.Valid() && 0 <= symbol < Memory.NUM_BUTTONS
  {
    var total := TotalGames(v.pet);
    match ev
    case NoInput => v
    case LeftButton => v.(gameMenuOption := Previous(v.gameMenuOption, total), menuOpenTime := now)
    case RightButton => v.(gameMenuOption := Next(v.gameMenuOption, total), menuOpenTime := now)
    case EnterButton =>
      var p := Pet.PlayStep(v.pet, now);
      var w := v.(pet := p.pet, showGameMenu := false);
      if !p.ok then w
      else if v.gameMenuOption == 0 then StartGameStep(w, now)
      else if v.gameMenuOption == 1 && p.pet.memoryGameUnlocked then StartMemoryGameStep(w, now, symbol)
      else w
  }

  /** The main menu: Left and Right cycle through the three entries; Enter opens the shop or the
      game menu at their first entry, or puts the pet to sleep and closes the menu. */
  function MainMenuInput(v: AppView, now: int, ev: Input): AppView
  {
    match ev
    case NoInput => v
    case LeftButton => v.(menuOption := Previous(v.menuOption, MENU_ITEMS), menuOpenTime := now)
    case RightButton => v.(menuOption := Next(v.menuOption, MENU_ITEMS), menuOpenTime := now)
    case EnterButton =>
      if v.menuOption == 0 then
        v.(showMenu := false, showShopMenu := true, shopMenuOption := 0, menuOpenTime := now)
      else if v.menuOption == 1 then
        v.(showMenu := false, showGameMenu := true, gameMenuOption := 0, menuOpenTime := now)
      else if v.menuOption == 2 then
        v.(pet := Pet.SleepStep(v.pet, now).pet, showMenu := false)
      else v
  }

  /** The plain view: Enter opens the main menu at its first entry. */
  function MainViewInput(v: AppView, now: int, ev: Input): AppView
  {
    if ev == EnterButton && !v.pet.isSleeping then v.(showMenu := true, menuOpenTime := now, menuOption := 0)
    else v
  }

  /** handleButtons(): the first matching screen takes the event. */
  function HandleStep(v: AppView, now: int, ev: Input, symbol: int): AppView
    requires v.memory.Valid() && 0 <= symbol < Memory.NUM_BUTTONS
  {
    if v.pet.isSleeping then SleepingInput(v, now, ev)
    else if v.inGame then DodgeInput(v, now, ev)
    else if v.inMemoryGame then MemoryInput(v, now, ev, symbol)
    else if v.showGameMenu then GameMenuInput(v, now, ev, symbol)
    else if v.showMenu then MainMenuInput(v, now, ev)
    else MainViewInput(v, now, ev)
  }

  // ---------------------------------------------------------------------------------------------
  // The shop, which has its own handler in loop().

  /** The purchase behind a shop entry: entry 4 unlocks the memory game while it is locked,
      every other entry is a food. */
  function Purchase(p: Pet.PetView, option: int, now: int): Pet.Outcome
  {
    if option == MEMORY_ITEM && !p.memoryGameUnlocked then Pet.BuyMemoryGameStep(p, now)
    else Pet.BuyFoodStep(p, option, now)
  }

  /** The shop's controls: Left and Right cycle through the entries (five while the memory game
      is locked, four after), each restarting the timeout; Enter buys the selected entry. */
  function ShopInput(v: AppView, now: int, ev: Input): AppView
  {
    var total := TotalShopItems(v.pet);
    match ev
    case NoInput => v
    case LeftButton => v.(shopMenuOption := Previous(v.shopMenuOption, total), menuOpenTime := now)
    case RightButton => v.(shopMenuOption := Next(v.shopMenuOption, total), menuOpenTime := now)
    case EnterButton => ShopSelectStep(v, now)
  }

  /** Shop selection: a purchase that succeeds closes the shop (and entry 4 returns the
      selection to 0); one that fails keeps it open under the insufficient-coins message. */
  function ShopSelectStep(v: AppView, now: int): AppView
  {
    var out := Purchase(v.pet, v.shopMenuOption, now);
    if out.ok then
      v.(pet := out.pet.(showInsufficientCoins := false), showShopMenu := false, menuOpenTime := now,
         shopMenuOption := if v.shopMenuOption == MEMORY_ITEM then 0 else v.shopMenuOption)
    else
      v.(pet := Pet.InsufficientCoins(out.pet, now), menuOpenTime := now)
  }

  /** A menu whose last activity is more than 5000 ms old. */
  predicate Expired(v: AppView, now: int)
  {
    now - v.menuOpenTime > MENU_TIMEOUT
  }

  /** The screen part of loop(): the shop (its controls blocked under the insufficient-coins
      message), the message alone, the sleeping pet, the running game, or a menu, each menu
      closing once it has expired.  `shopEv` is the event the shop's handler sees. */
  function ScreenStep(v: AppView, now: int, shopEv: Input, lane: int): AppView
    requires v.Valid() && RollsOk(lane, 0)
  {
    if v.showShopMenu then
      var s := if v.pet.showInsufficientCoins then v else ShopInput(v, now, shopEv);
      if Expired(s, now) then s.(showShopMenu := false) else s
    else if v.pet.showInsufficientCoins || v.pet.isSleeping then v
    else if v.inGame then UpdateGameStep(v, now, lane)
    else if v.inMemoryGame then v.(memory := Memory.UpdateStep(v.memory, now))
    else if v.showGameMenu then (if Expired(v, now) then v.(showGameMenu := false) else v)
    else if v.showMenu then (if Expired(v, now) then v.(showMenu := false) else v)
    else v
  }

  /** The first part of loop(): the pet's update every 500 ms. */
  function PetTick(v: AppView, now: int): (r: AppView)
    ensures v.Valid() ==> r.Valid()
  {
    if now - v.lastUpdateTime >= PET_UPDATE_PERIOD
    then v.(lastUpdateTime := now, pet := Pet.UpdateStep(v.pet, now))
    else v
  }

  /** Whether handleButtons runs: not under the insufficient-coins message, not in the shop. */
  predicate ButtonsHandled(v: AppView)
  {
    !v.pet.showInsufficientCoins && !v.showShopMenu
  }

  /** loop(): after the pet's tick, an angry or happy face freezes everything; otherwise
      handleButtons takes the event unless the shop or the message is up, in which case it is the
      shop's handler that sees it, and then the screens advance. */
  function LoopStep(v: AppView, now: int, ev: Input, lane: int, symbol: int): AppView
    requires v.Valid() && RollsOk(lane, symbol)
  {
    var u := PetTick(v, now);
    if u.pet.showAngryFace || u.pet.showHappyFace then u
    else if ButtonsHandled(u) then
      var h := HandleStep(u, now, ev, symbol);
      HandleKeepsValid(u, now, ev, lane, symbol);
      ScreenStep(h, now, NoInput, lane)
    else ScreenStep(u, now, ev, lane)
  }

  // ---------------------------------------------------------------------------------------------
  // Invariants.

  lemma EndGameKeepsValid(v: AppView, now: int)
    requires v.Valid()
    ensures EndGameStep(v, now).Valid()
  {
    Dodge.RecordIsMonotone(v.dodge);
    RewardTable(Dodge.SaveRecordStep(v.dodge).level);
  }

  lemma EndMemoryGameKeepsValid(v: AppView, now: int)
    requires v.Valid()
    ensures EndMemoryGameStep(v, now).Valid()
  {
    RewardTable(v.memory.level);
  }

  lemma SleepingInputKeepsValid(v: AppView, now: int, ev: Input)
    requires v.Valid()
    ensures SleepingInput(v, now, ev).Valid()
  {
  }

  lemma DodgeInputKeepsValid(v: AppView, now: int, ev: Input)
    requires v.Valid() && v.inGame
    ensures DodgeInput(v, now, ev).Valid()
  {
    Dodge.MovesStayInLanes(v.dodge);
    Dodge.RecordIsMonotone(v.dodge);
    RewardTable(Dodge.SaveRecordStep(v.dodge).level);
  }

  lemma MemoryInputKeepsValid(v: AppView, now: int, ev: Input, symbol: int)
    requires v.Valid() && v.inMemoryGame && 0 <= symbol < Memory.NUM_BUTTONS
    ensures MemoryInput(v, now, ev, symbol).Valid()
  {
    RewardTable(v.memory.level);
  }

  lemma GameMenuInputKeepsValid(v: AppView, now: int, ev: Input, symbol: int)
    requires v.Valid() && v.showGameMenu && 0 <= symbol < Memory.NUM_BUTTONS
    ensures GameMenuInput(v, now, ev, symbol).Valid()
  {
    Dodge.ResetRestoresStart(v.dodge, now);
  }

  lemma MainMenuInputKeepsValid(v: AppView, now: int, ev: Input)
    requires v.Valid() && v.showMenu
    ensures MainMenuInput(v, now, ev).Valid()
  {
  }

  lemma HandleKeepsValid(v: AppView, now: int, ev: Input, lane: int, symbol: int)
    requires v.Valid() && RollsOk(lane, symbol) && !v.showShopMenu
    ensures HandleStep(v, now, ev, symbol).Valid()
  {
    if v.pet.isSleeping {
      SleepingInputKeepsValid(v, now, ev);
    } else if v.inGame {
      DodgeInputKeepsValid(v, now, ev);
    } else if v.inMemoryGame {
      MemoryInputKeepsValid(v, now, ev, symbol);
    } else if v.showGameMenu {
      GameMenuInputKeepsValid(v, now, ev, symbol);
    } else if v.showMenu {
      MainMenuInputKeepsValid(v, now, ev);
    }
  }

  lemma ShopInputKeepsValid(v: AppView, now: int, ev: Input)
    requires v.Valid() && v.showShopMenu
    ensures ShopInput(v, now, ev).Valid()
  {
    if ev == EnterButton {
      var out := Purchase(v.pet, v.shopMenuOption, now);
      assert out.pet.memoryGameUnlocked ==> v.pet.memoryGameUnlocked || (v.shopMenuOption == MEMORY_ITEM && out.ok);
    }
  }

  lemma UpdateGameKeepsValid(v: AppView, now: int, lane: int)
    requires v.Valid() && v.inGame && RollsOk(lane, 0)
    ensures UpdateGameStep(v, now, lane).Valid()
  {
    Dodge.UpdateKeepsValid(v.dodge, now, lane);
    var w := v.(dodge := Dodge.UpdateStep(v.dodge, now, lane));
    Dodge.RecordIsMonotone(w.dodge);
    RewardTable(Dodge.SaveRecordStep(w.dodge).level);
  }

  lemma ScreenKeepsValid(v: AppView, now: int, shopEv: Input, lane: int)
    requires v.Valid() && RollsOk(lane, 0)
    ensures ScreenStep(v, now, shopEv, lane).Valid()
  {
    if v.showShopMenu {
      ShopInputKeepsValid(v, now, shopEv);
    } else if !v.pet.showInsufficientCoins && !v.pet.isSleeping && v.inGame {
      UpdateGameKeepsValid(v, now, lane);
    }
  }

  /** Every loop iteration keeps the controller's invariant. */
  lemma LoopKeepsValid(v: AppView, now: int, ev: Input, lane: int, symbol: int)
    requires v.Valid() && RollsOk(lane, symbol)
    ensures LoopStep(v, now, ev, lane, symbol).Valid()
  {
    var u := PetTick(v, now);
    if !(u.pet.showAngryFace || u.pet.showHappyFace) {
      if ButtonsHandled(u) {
        HandleKeepsValid(u, now, ev, lane, symbol);
        ScreenKeepsValid(HandleStep(u, now, ev, symbol), now, NoInput, lane);
      } else {
        ScreenKeepsValid(u, now, ev, lane);
      }
    }
  }

  // ---------------------------------------------------------------------------------------------
  // Properties of the controller.

  /** Main menu navigation: Left from 0 wraps to 2 and Right from 2 wraps to 0, every other step
      moves by one, and each one restarts the menu's timeout. */
  lemma MainMenuWraps(v: AppView, now: int)
    requires v.Valid() && v.showMenu
    ensures var l := MainMenuInput(v, now, LeftButton);
      && l.menuOption == (if v.menuOption == 0 then 2 else v.menuOption - 1)
      && l == v.(menuOption := l.menuOption, menuOpenTime := now)
    ensures var r := MainMenuInput(v, now, RightButton);
      && r.menuOption == (if v.menuOption == 2 then 0 else v.menuOption + 1)
      && r == v.(menuOption := r.menuOption, menuOpenTime := now)
  {
  }

  /** Main menu selection: 0 opens the shop and 1 the game menu, each at its first entry;
      2 asks the pet to sleep and closes the menu whatever the answer. */
  lemma MainMenuEnter(v: AppView, now: int)
    requires v.Valid() && v.showMenu
    ensures var r := MainMenuInput(v, now, EnterButton);
      && !r.showMenu
      && (v.menuOption == 0 ==> r.showShopMenu && r.shopMenuOption == 0 && r.menuOpenTime == now && r.pet == v.pet)
      && (v.menuOption == 1 ==> r.showGameMenu && r.gameMenuOption == 0 && r.menuOpenTime == now && r.pet == v.pet)
      && (v.menuOption == 2 ==> r.pet == Pet.SleepStep(v.pet, now).pet && !r.showShopMenu && !r.showGameMenu)
  {
  }

  /** Game menu navigation stays in [0, number of unlocked games) and restarts the timeout. */
  lemma GameMenuWraps(v: AppView, now: int, ev: Input, symbol: int)
    requires v.Valid() && v.showGameMenu && 0 <= symbol < Memory.NUM_BUTTONS
    requires ev == LeftButton || ev == RightButton
    ensures var r := GameMenuInput(v, now, ev, symbol);
      && 0 <= r.gameMenuOption < TotalGames(v.pet)
      && r == v.(gameMenuOption := r.gameMenuOption, menuOpenTime := now)
      && (!v.pet.memoryGameUnlocked ==> r.gameMenuOption == 0)
  {
  }

  /** Game menu selection on an awake pet: play() succeeds, the menu closes, and the dodge game
      (entry 0) or the memory game (entry 1, only ever selectable once bought) starts. */
  lemma GameMenuStarts(v: AppView, now: int, symbol: int)
    requires v.Valid() && v.showGameMenu && !v.pet.isSleeping && 0 <= symbol < Memory.NUM_BUTTONS
    ensures var r := GameMenuInput(v, now, EnterButton, symbol);
      && !r.showGameMenu && r.pet == Pet.PlayStep(v.pet, now).pet
      && (v.gameMenuOption == 0 ==> r.inGame && r.dodge == Dodge.ResetStep(v.dodge, now) && !r.inMemoryGame)
      && (v.gameMenuOption == 1 ==> r.inMemoryGame && r.memory == Memory.ResetStep(v.memory, now, symbol) && !r.inGame)
      && r.gameStartTime == now
  {
  }

  /** Shop navigation stays in [0, number of items), 5 while the memory game is locked and 4
      after, and restarts the timeout. */
  lemma ShopWraps(v: AppView, now: int, ev: Input)
    requires v.Valid() && v.showShopMenu
    requires ev == LeftButton || ev == RightButton
    ensures var r := ShopInput(v, now, ev);
      && 0 <= r.shopMenuOption < TotalShopItems(v.pet)
      && r == v.(shopMenuOption := r.shopMenuOption, menuOpenTime := now)
      && (ev == LeftButton && v.shopMenuOption == 0 ==> r.shopMenuOption == TotalShopItems(v.pet) - 1)
      && (ev == RightButton && v.shopMenuOption == TotalShopItems(v.pet) - 1 ==> r.shopMenuOption == 0)
  {
  }

  /** Shop selection: a purchase either succeeds and closes the shop, or fails and keeps it open
      under the insufficient-coins message; entry 4 buys the memory game while it is locked and
      then returns the selection to 0. */
  lemma ShopEnter(v: AppView, now: int)
    requires v.Valid() && v.showShopMenu
    ensures var r := ShopInput(v, now, EnterButton);
      var out := Purchase(v.pet, v.shopMenuOption, now);
      && r.menuOpenTime == now
      && (out.ok ==> !r.showShopMenu && !r.pet.showInsufficientCoins && r.pet.showHappyFace)
      && (!out.ok ==> r.showShopMenu && r.pet.showInsufficientCoins && r.pet.insufficientCoinsTimer == now
                      && r.shopMenuOption == v.shopMenuOption
                      && r.pet.coins == v.pet.coins && r.pet.hunger == v.pet.hunger)
      && (v.shopMenuOption == MEMORY_ITEM ==>
            !v.pet.memoryGameUnlocked && (out.ok <==> v.pet.coins >= Pet.MEMORY_GAME_COST)
            && (out.ok ==> r.pet.memoryGameUnlocked && r.shopMenuOption == 0
                           && r.pet.coins == v.pet.coins - Pet.MEMORY_GAME_COST))
      && (v.shopMenuOption < MEMORY_ITEM ==>
            (out.ok <==> v.pet.coins >= Pet.FoodCost(v.shopMenuOption))
            && (out.ok ==> r.pet.coins == v.pet.coins - Pet.FoodCost(v.shopMenuOption)
                           && r.shopMenuOption == v.shopMenuOption))
  {
  }

  /** An angry or happy face (after the pet's tick) freezes the controller: the event is dropped
      and no screen advances. */
  lemma OverlayBlocksInput(v: AppView, now: int, ev: Input, lane: int, symbol: int)
    requires v.Valid() && RollsOk(lane, symbol)
    requires PetTick(v, now).pet.showAngryFace || PetTick(v, now).pet.showHappyFace
    ensures LoopStep(v, now, ev, lane, symbol) == PetTick(v, now)
  {
  }

  /** Under the insufficient-coins message the event is dropped: outside the shop nothing moves,
      inside it only the timeout can close the shop. */
  lemma MessageBlocksInput(v: AppView, now: int, ev: Input, lane: int, symbol: int)
    requires v.Valid() && RollsOk(lane, symbol)
    requires var u := PetTick(v, now);
      u.pet.showInsufficientCoins && !u.pet.showAngryFace && !u.pet.showHappyFace
    ensures var u := PetTick(v, now);
      LoopStep(v, now, ev, lane, symbol)
        == if u.showShopMenu && Expired(u, now) then u.(showShopMenu := false) else u
  {
  }

  /** While the shop is open handleButtons is skipped: the event goes to the shop alone. */
  lemma ShopOwnsInput(v: AppView, now: int, ev: Input, lane: int, symbol: int)
    requires v.Valid() && RollsOk(lane, symbol)
    requires var u := PetTick(v, now);
      u.showShopMenu && !u.pet.showInsufficientCoins && !u.pet.showAngryFace && !u.pet.showHappyFace
    ensures var u := PetTick(v, now);
      var s := ShopInput(u, now, ev);
      LoopStep(v, now, ev, lane, symbol) == if Expired(s, now) then s.(showShopMenu := false) else s
  {
  }

  /** A sleeping pet takes no input but wakes on any release; nothing else changes. */
  lemma SleepingPetWakes(v: AppView, now: int, ev: Input, lane: int, symbol: int)
    requires v.Valid() && RollsOk(lane, symbol)
    requires var u := PetTick(v, now);
      u.pet.isSleeping && ButtonsHandled(u) && !u.pet.showAngryFace && !u.pet.showHappyFace
    ensures var u := PetTick(v, now);
      var r := LoopStep(v, now, ev, lane, symbol);
      && (ev == NoInput ==> r == u)
      && (ev != NoInput ==> r == ScreenStep(u.(pet := Pet.WakeStep(u.pet, now)), now, NoInput, lane))
      && (ev != NoInput ==> !r.pet.isSleeping)
  {
  }

  /** A menu closes on its own only once it has been idle for more than 5000 ms. */
  lemma MenuTimeout(v: AppView, now: int, lane: int, symbol: int)
    requires v.Valid() && RollsOk(lane, symbol)
    requires var u := PetTick(v, now);
      && (u.showMenu || u.showGameMenu)
      && !u.pet.isSleeping && ButtonsHandled(u) && !u.pet.showAngryFace && !u.pet.showHappyFace
    ensures var u := PetTick(v, now);
      var r := LoopStep(v, now, NoInput, lane, symbol);
      && (r.showMenu || r.showGameMenu <==> now - v.menuOpenTime <= MENU_TIMEOUT)
      && r == u.(showMenu := r.showMenu, showGameMenu := r.showGameMenu)
  {
  }

  /** Ending either game pays its reward into both the coins and (capped at 100) the boredom. */
  lemma RewardsPaid(v: AppView, now: int)
    requires v.Valid()
    ensures var r := EndGameStep(v, now);
      && !r.inGame && r.pet.showHappyFace
      && r.pet.coins == v.pet.coins + DodgeReward(v.dodge.level)
      && r.pet.boredom == Pet.Min(Pet.MAX_STAT, v.pet.boredom + DodgeReward(v.dodge.level))
      && r.dodge.record == Dodge.Max(v.dodge.record, v.dodge.level)
    ensures var r := EndMemoryGameStep(v, now);
      && !r.inMemoryGame && r.pet.showHappyFace && r.pet.happyFaceTimer == now
      && r.pet.coins == v.pet.coins + MemoryReward(v.memory.level)
      && r.pet.boredom == Pet.Min(Pet.MAX_STAT, v.pet.boredom + MemoryReward(v.memory.level))
  {
  }

  // ---------------------------------------------------------------------------------------------
  // The controller as the globals of main.cpp.

  class Controller {
    const pet: Pet.Tamagotchi
    const game: Dodge.DodgeGame
    const memoryGame: Memory.MemoryGame
    var lastUpdateTime: int
    var gameStartTime: int
    var menuOpenTime: int
    var inGame: bool
    var inMemoryGame: bool
    var showMenu: bool
    var showGameMenu: bool
    var showShopMenu: bool
    var menuOption: int
    var gameMenuOption: int
    var shopMenuOption: int

    function Snap(): AppView
      reads this, pet, game, game.obstacles, memoryGame, memoryGame.sequence
    {
      AppView(pet.Snap(), game.Snap(), memoryGame.Snap(), lastUpdateTime, gameStartTime, menuOpenTime,
              inGame, inMemoryGame, showMenu, showGameMenu, showShopMenu,
              menuOption, gameMenuOption, shopMenuOption)
    }

    ghost predicate Valid()
      reads this, pet, game, game.obstacles, memoryGame, memoryGame.sequence
    {
      Snap().Valid()
    }

    /** The globals at power-on, with freshly built engines. */
    constructor()
      ensures Valid() && fresh(pet) && fresh(game) && fresh(game.obstacles) && fresh(memoryGame)
      ensures fresh(memoryGame.sequence)
      ensures Snap().pet == Pet.NEW_PET && !inGame && !inMemoryGame && !showMenu && !showGameMenu
      ensures !showShopMenu && menuOption == 0 && gameMenuOption == 0 && shopMenuOption == 0
    {
      pet := new Pet.Tamagotchi();
      game := new Dodge.DodgeGame();
      memoryGame := new Memory.MemoryGame();
      lastUpdateTime, gameStartTime, menuOpenTime := 0, 0, 0;
      inGame, inMemoryGame, showMenu, showGameMenu, showShopMenu := false, false, false, false, false;
      menuOption, gameMenuOption, shopMenuOption := 0, 0, 0;
    }

    method StartGame(now: nat)
      requires game.Valid()
      modifies this, game, game.obstacles
      ensures Snap() == StartGameStep(old(Snap()), now)
    {
      inGame := true;
      gameStartTime := now;
      game.Reset(now);
    }

    method StartMemoryGame(now: nat, symbol: int)
      requires memoryGame.Valid() && 0 <= symbol < Memory.NUM_BUTTONS
      modifies this, memoryGame, memoryGame.sequence
      ensures Snap() == StartMemoryGameStep(old(Snap()), now, symbol)
    {
      inMemoryGame := true;
      gameStartTime := now;
      memoryGame.Reset(now, symbol);
    }

    method EndGame(now: nat)
      requires Valid()
      modifies this, game, pet
      ensures Snap() == EndGameStep(old(Snap()), now)
    {
      inGame := false;
      game.SaveRecord();
      var finalLevel := game.level;
      var coinsEarned := DodgeCoins(finalLevel);
      PayReward(coinsEarned, now + GAME_OVER_PAUSE);
    }

    method EndMemoryGame(now: nat)
      requires Valid() && inMemoryGame
      modifies this, pet
      ensures Snap() == EndMemoryGameStep(old(Snap()), now)
    {
      inMemoryGame := false;
      var finalLevel := memoryGame.level;
      var coinsEarned := MemoryCoins(finalLevel);
      PayReward(coinsEarned, now);
    }

    /** The reward both games pay: the coins, as much boredom relief, and the happy face. */
    method PayReward(coinsEarned: int, happyAt: nat)
      requires pet.Valid() && coinsEarned >= 0
      modifies pet
      ensures pet.Snap() == Rewarded(old(pet.Snap()), coinsEarned, happyAt)
    {
      pet.AddCoins(coinsEarned);
      pet.AddBoredom(coinsEarned);
      pet.ShowHappy(happyAt);
    }

    method UpdateGame(now: nat, lane: int)
      requires Valid() && inGame && RollsOk(lane, 0)
      modifies this, game, game.obstacles, pet
      ensures Snap() == UpdateGameStep(old(Snap()), now, lane)
    {
      game.Update(now, lane);
      var hit := game.CheckCollision();
      if hit {
        EndGame(now);
      }
    }

    /** updateMemoryGame() */
    method UpdateMemoryGame(now: nat)
      requires memoryGame.Valid()
      modifies memoryGame
      ensures Snap() == old(Snap()).(memory := Memory.UpdateStep(old(Snap()).memory, now))
    {
      memoryGame.Update(now);
    }

    // -------------------------------------------------------------------------------------------
    // handleButtons()

    method HandleSleeping(now: nat, ev: Input)
      requires Valid()
      modifies pet
      ensures Snap() == SleepingInput(old(Snap()), now, ev)
    {
      if ev != NoInput {
        pet.WakeUp(now);
      }
    }

    method HandleDodge(now: nat, ev: Input)
      requires Valid() && inGame
      modifies this, game, pet
      ensures Snap() == DodgeInput(old(Snap()), now, ev)
    {
      match ev
      case NoInput =>
      case LeftButton => game.MoveLeft();
      case RightButton => game.MoveRight();
      case EnterButton => EndGame(now);
    }

    method HandleMemory(now: nat, ev: Input, symbol: int)
      requires Valid() && inMemoryGame && 0 <= symbol < Memory.NUM_BUTTONS
      modifies this, memoryGame, memoryGame.sequence, pet
      ensures Snap() == MemoryInput(old(Snap()), now, ev, symbol)
    {
      if memoryGame.waitingForInput {
        match ev
        case NoInput =>
        case LeftButton => memoryGame.RegisterInput(0, now, symbol);
        case EnterButton => memoryGame.RegisterInput(1, now, symbol);
        case RightButton => memoryGame.RegisterInput(2, now, symbol);
      } else if ev == EnterButton {
        EndMemoryGame(now);
      }
    }

    method HandleGameMenu(now: nat, ev: Input, symbol: int)
      requires Valid() && showGameMenu && 0 <= symbol < Memory.NUM_BUTTONS
      modifies this, pet, game, game.obstacles, memoryGame, memoryGame.sequence
      ensures Snap() == GameMenuInput(old(Snap()), now, ev, symbol)
    {
      var totalGames := if pet.memoryGameUnlocked then 2 else 1;
      match ev
      case NoInput =>
      case LeftButton =>
        gameMenuOption, menuOpenTime := Previous(gameMenuOption, totalGames), now;
      case RightButton =>
        gameMenuOption, menuOpenTime := Next(gameMenuOption, totalGames), now;
      case EnterButton =>
        var success := pet.Play(now);
        showGameMenu := false;
        if success {
          if gameMenuOption == 0 {
            StartGame(now);
          } else if gameMenuOption == 1 && pet.memoryGameUnlocked {
            StartMemoryGame(now, symbol);
          }
        }
    }

    method HandleMainMenu(now: nat, ev: Input)
      requires Valid() && showMenu
      modifies this, pet
      ensures Snap() == MainMenuInput(old(Snap()), now, ev)
    {
      match ev
      case NoInput =>
      case LeftButton =>
        menuOption, menuOpenTime := Previous(menuOption, MENU_ITEMS), now;
      case RightButton =>
        menuOption, menuOpenTime := Next(menuOption, MENU_ITEMS), now;
      case EnterButton =>
        MainMenuSelect(now);
    }

    /** Enter in the main menu: the shop, the game menu, or sleep. */
    method MainMenuSelect(now: nat)
      requires pet.Valid()
      modifies this, pet
      ensures Snap() == MainMenuInput(old(Snap()), now, EnterButton)
    {
      if menuOption == 0 {
        showMenu, showShopMenu, shopMenuOption, menuOpenTime := false, true, 0, now;
      } else if menuOption == 1 {
        showMenu, showGameMenu, gameMenuOption, menuOpenTime := false, true, 0, now;
      } else if menuOption == 2 {
        var _ := pet.Sleep(now);
        showMenu := false;
      }
    }

    method HandleMainView(now: nat, ev: Input)
      requires Valid()
      modifies this
      ensures Snap() == MainViewInput(old(Snap()), now, ev)
    {
      if ev == EnterButton && !pet.isSleeping {
        showMenu, menuOpenTime, menuOption := true, now, 0;
      }
    }

    /** handleButtons(): the first screen that is up takes the event. */
    method HandleButtons(now: nat, ev: Input, symbol: int)
      requires Valid() && !showShopMenu && 0 <= symbol < Memory.NUM_BUTTONS
      modifies this, pet, game, game.obstacles, memoryGame, memoryGame.sequence
      ensures Valid() && Snap() == HandleStep(old(Snap()), now, ev, symbol)
    {
      HandleKeepsValid(Snap(), now, ev, 0, symbol);
      if pet.isSleeping {
        HandleSleeping(now, ev);
      } else if inGame {
        HandleDodge(now, ev);
      } else if inMemoryGame {
        HandleMemory(now, ev, symbol);
      } else if showGameMenu {
        HandleGameMenu(now, ev, symbol);
      } else if showMenu {
        HandleMainMenu(now, ev);
      } else {
        HandleMainView(now, ev);
      }
    }

    // -------------------------------------------------------------------------------------------
    // loop()

    /** The shop's own handler: navigation, and a purchase on Enter. */
    method ShopControls(now: nat, ev: Input)
      requires Valid() && showShopMenu
      modifies this, pet
      ensures Snap() == ShopInput(old(Snap()), now, ev)
    {
      var totalShopItems := if pet.memoryGameUnlocked then 4 else 5;
      match ev
      case NoInput =>
      case LeftButton =>
        shopMenuOption, menuOpenTime := Previous(shopMenuOption, totalShopItems), now;
      case RightButton =>
        shopMenuOption, menuOpenTime := Next(shopMenuOption, totalShopItems), now;
      case EnterButton =>
        ShopSelect(now);
    }

    /** Enter in the shop: the purchase, then the shop closes on success or raises the
        insufficient-coins message on failure. */
    method ShopSelect(now: nat)
      requires pet.Valid()
      modifies this, pet
      ensures Snap() == ShopSelectStep(old(Snap()), now)
    {
      var bought := Buy(now);
      if bought {
        pet.ClearInsufficientCoins();
        showShopMenu := false;
        menuOpenTime := now;
        if shopMenuOption == MEMORY_ITEM {
          shopMenuOption := 0;
        }
      } else {
        menuOpenTime := now;
        pet.ShowInsufficientCoins(now);
      }
    }

    /** The purchase behind the selected shop entry. */
    method Buy(now: nat) returns (bought: bool)
      requires pet.Valid()
      modifies pet
      ensures Pet.Outcome(pet.Snap(), bought) == Purchase(old(pet.Snap()), shopMenuOption, now)
    {
      if shopMenuOption == MEMORY_ITEM && !pet.memoryGameUnlocked {
        bought := pet.BuyMemoryGame(now);
      } else {
        bought := pet.BuyFood(shopMenuOption, now);
      }
    }

    /** The screen part of loop(). */
    method AdvanceScreen(now: nat, shopEv: Input, lane: int)
      requires Valid() && RollsOk(lane, 0)
      modifies this, pet, game, game.obstacles, memoryGame
      ensures Valid() && Snap() == ScreenStep(old(Snap()), now, shopEv, lane)
    {
      ScreenKeepsValid(Snap(), now, shopEv, lane);
      if showShopMenu {
        ShopScreen(now, shopEv);
      } else if pet.showInsufficientCoins || pet.isSleeping {
      } else if inGame {
        UpdateGame(now, lane);
      } else if inMemoryGame {
        UpdateMemoryGame(now);
      } else if showGameMenu {
        if now - menuOpenTime > MENU_TIMEOUT {
          showGameMenu := false;
        }
      } else if showMenu {
        if now - menuOpenTime > MENU_TIMEOUT {
          showMenu := false;
        }
      }
    }

    /** The shop branch of loop(): controls unless the message is up, then the timeout. */
    method ShopScreen(now: nat, shopEv: Input)
      requires Valid() && showShopMenu
      modifies this, pet
      ensures Snap() == ScreenStep(old(Snap()), now, shopEv, 0)
    {
      if !pet.showInsufficientCoins {
        ShopControls(now, shopEv);
      }
      if now - menuOpenTime > MENU_TIMEOUT {
        showShopMenu := false;
      }
    }

    /** The pet's tick every 500 ms at the top of loop(). */
    method TickPet(now: nat)
      requires Valid()
      modifies this, pet
      ensures Snap() == PetTick(old(Snap()), now)
    {
      if now - lastUpdateTime >= PET_UPDATE_PERIOD {
        lastUpdateTime := now;
        pet.Update(now);
      }
    }

    /** loop(): one iteration, with the iteration's button event and random draws. */
    method Loop(now: nat, ev: Input, lane: int, symbol: int)
      requires Valid() && RollsOk(lane, symbol)
      modifies this, pet, game, game.obstacles, memoryGame, memoryGame.sequence
      ensures Valid() && Snap() == LoopStep(old(Snap()), now, ev, lane, symbol)
    {
      TickPet(now);
      if pet.showAngryFace || pet.showHappyFace {
        return;
      }
      if !pet.showInsufficientCoins && !showShopMenu {
        HandleButtons(now, ev, symbol);
        AdvanceScreen(now, NoInput, lane);
      } else {
        AdvanceScreen(now, ev, lane);
      }
    }
  }
}
