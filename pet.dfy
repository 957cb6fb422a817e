/** The pet: needs that decay over time, a coin balance, transient feedback flags and a derived
    mood (src/tamagotchi.cpp, include/tamagotchi.h). Time is the parameter `now`, a monotone
    millisecond clock; every timestamp compared with it was taken from it earlier. */
module Pet {

  const MAX_STAT: int := 100
  const FLAG_DURATION: int := 3000          // how long each feedback flag stays up
  const MINUTE: int := 60000                // period of the decay tick
  const SLEEP_DURATION: int := 600000       // 10 * 60 * 1000
  const HUNGER_DECAY: int := 4
  const BOREDOM_DECAY: int := 2
  const SLEEPINESS_DECAY: int := 1
  const FEED_COST: int := 10
  const FEED_RESTORE: int := 20
  const FEED_TIREDNESS: int := 5
  const FULL_THRESHOLD: int := 80           // feeding is refused above this hunger
  const PLAY_HUNGER: int := 15
  const PLAY_TIREDNESS: int := 15
  const SLEEP_THRESHOLD: int := 25          // sleeping is refused above this sleepiness
  const WAKE_BOREDOM: int := 20
  const WAKE_HUNGER: int := 15
  const MEMORY_GAME_COST: int := 50
  const LOW_STAT: int := 20                 // mood thresholds

  // Mood identifiers returned by getMood.
  const MOOD_DEFAULT: int := 0
  const MOOD_ANGRY: int := 2
  const MOOD_HAPPY: int := 3
  const MOOD_SLEEPY: int := 4
  const MOOD_SAD: int := 5

  function Min(a: int, b: int): int { if a <= b then a else b }
  function Max(a: int, b: int): int { if a >= b then a else b }

  /** Arduino's constrain(v, 0, 100), used by the stat setters. */
  function Clamp(v: int): (r: int)
    ensures 0 <= r <= MAX_STAT
    ensures 0 <= v <= MAX_STAT ==> r == v
    ensures v < 0 ==> r == 0
    ensures v > MAX_STAT ==> r == MAX_STAT
  {
    if v < 0 then 0 else if v > MAX_STAT then MAX_STAT else v
  }

  // ---------------------------------------------------------------------------------------------
  // Persistent storage: the "tamagotchi" Preferences namespace as an in-memory map.

  datatype Pref = IntPref(i: int) | BoolPref(b: bool)

  /** The six keys the pet uses: "hunger", "boredom", "sleep", "coins", "sleeping", "memgame". */
  datatype Key = HungerKey | BoredomKey | SleepKey | CoinsKey | SleepingKey | MemGameKey
  type Store = map<Key, Pref>

  /** Preferences.getInt: the stored integer, or the default when the key is absent. */
  function GetInt(s: Store, key: Key, default: int): int
  {
    if key in s && s[key].IntPref? then s[key].i else default
  }

  function GetBool(s: Store, key: Key, default: bool): bool
  {
    if key in s && s[key].BoolPref? then s[key].b else default
  }

  predicate StatStored(s: Store, key: Key)
  {
    key in s && s[key].IntPref? ==> 0 <= s[key].i <= MAX_STAT
  }

  /** What the pet itself writes: stats within 0..100 and a non-negative balance. */
  predicate StoreOk(s: Store)
  {
    && StatStored(s, HungerKey) && StatStored(s, BoredomKey) && StatStored(s, SleepKey)
    && (CoinsKey in s && s[CoinsKey].IntPref? ==> s[CoinsKey].i >= 0)
  }

  // ---------------------------------------------------------------------------------------------
  // The pet's fields as a value.

  datatype PetView = PetView(
    hunger: int, boredom: int, sleepiness: int, coins: int,
    memoryGameUnlocked: bool, isSleeping: bool,
    showAngryFace: bool, angryFaceTimer: int,
    showHappyFace: bool, happyFaceTimer: int,
    showInsufficientCoins: bool, insufficientCoinsTimer: int,
    lastMinuteUpdate: int, sleepStartTime: int,
    prefs: Store)
  {
    /** The invariant: the three stats are percentages and the balance is never negative. */
    predicate Valid()
    {
      && 0 <= hunger <= MAX_STAT && 0 <= boredom <= MAX_STAT && 0 <= sleepiness <= MAX_STAT
      && coins >= 0 && StoreOk(prefs)
    }
  }

  /** The state the constructor builds, before anything is loaded. */
  const NEW_PET: PetView := PetView(100, 100, 100, 0, false, false,
                                    false, 0, false, 0, false, 0, 0, 0, map[])

  /** The persisted part of the pet. */
  datatype Stats = Stats(hunger: int, boredom: int, sleepiness: int, coins: int, sleeping: bool)

  function StatsOf(v: PetView): Stats
  {
    Stats(v.hunger, v.boredom, v.sleepiness, v.coins, v.isSleeping)
  }

  /** saveStats: writes the five persisted values under their keys. */
  function Saved(v: PetView): (r: PetView)
    ensures v.Valid() ==> r.Valid()
  {
    v.(prefs := v.prefs[HungerKey := IntPref(v.hunger)][BoredomKey := IntPref(v.boredom)]
                       [SleepKey := IntPref(v.sleepiness)][CoinsKey := IntPref(v.coins)]
                       [SleepingKey := BoolPref(v.isSleeping)])
  }

  /** loadStats: reads the five persisted values, with the defaults of a fresh pet. */
  function Loaded(v: PetView): (r: PetView)
    ensures v.Valid() ==> r.Valid()
  {
    v.(hunger := GetInt(v.prefs, HungerKey, 100), boredom := GetInt(v.prefs, BoredomKey, 100),
       sleepiness := GetInt(v.prefs, SleepKey, 100), coins := GetInt(v.prefs, CoinsKey, 0),
       isSleeping := GetBool(v.prefs, SleepingKey, false))
  }

  /** Loading right after saving changes nothing: the five values come back as they were. */
  lemma LoadAfterSave(v: PetView)
    ensures Loaded(Saved(v)) == Saved(v)
    ensures StatsOf(Loaded(Saved(v))) == StatsOf(v)
  {
  }

  /** initialize: open the store, load the stats and the unlock flag, restart the decay clock,
      and wake a pet that was persisted asleep. */
  function InitializeStep(v: PetView, store: Store, now: int): (r: PetView)
    requires StoreOk(store)
    ensures v.Valid() ==> r.Valid()
  {
    var l := Loaded(v.(prefs := store));
    var u := l.(memoryGameUnlocked := GetBool(store, MemGameKey, false), lastMinuteUpdate := now);
    if u.isSleeping then Saved(u.(isSleeping := false)) else u
  }

  /** After start-up the pet is awake and holds the stored values (or the defaults). */
  lemma InitializeLoads(v: PetView, store: Store, now: int)
    requires StoreOk(store)
    ensures var r := InitializeStep(v, store, now);
      && !r.isSleeping
      && r.hunger == GetInt(store, HungerKey, 100) && r.boredom == GetInt(store, BoredomKey, 100)
      && r.sleepiness == GetInt(store, SleepKey, 100) && r.coins == GetInt(store, CoinsKey, 0)
      && r.memoryGameUnlocked == GetBool(store, MemGameKey, false)
  {
  }

  // ---------------------------------------------------------------------------------------------
  // Actions. Each returns the new state and the boolean the source returns.

  datatype Outcome = Outcome(pet: PetView, ok: bool)

  predicate IsFood(t: int) { 0 <= t < 4 }

  /** Food table: apple, bread, cheese, cake. */
  function FoodCost(t: int): int
    requires IsFood(t)
  {
    [10, 15, 20, 25][t]
  }

  function FoodRestore(t: int): int
    requires IsFood(t)
  {
    [25, 50, 75, 100][t]
  }

  function InsufficientCoins(v: PetView, now: int): PetView
  {
    v.(showInsufficientCoins := true, insufficientCoinsTimer := now)
  }

  function Angry(v: PetView, now: int): PetView
  {
    v.(showAngryFace := true, angryFaceTimer := now)
  }

  function Happy(v: PetView, now: int): PetView
  {
    v.(showHappyFace := true, happyFaceTimer := now)
  }

  /** buyFood(t) */
  function BuyFoodStep(v: PetView, t: int, now: int): (r: Outcome)
    ensures v.Valid() ==> r.pet.Valid()
  {
    if !IsFood(t) then Outcome(v, false)
    else if v.coins < FoodCost(t) then Outcome(InsufficientCoins(v, now), false)
    else Outcome(Saved(Happy(v.(coins := v.coins - FoodCost(t),
                                    hunger := Min(MAX_STAT, v.hunger + FoodRestore(t))), now)), true)
  }

  /** buyMemoryGame() */
  function BuyMemoryGameStep(v: PetView, now: int): (r: Outcome)
    ensures v.Valid() ==> r.pet.Valid()
  {
    if v.memoryGameUnlocked then Outcome(v, false)
    else if v.coins < MEMORY_GAME_COST then Outcome(InsufficientCoins(v, now), false)
    else
      var u := v.(coins := v.coins - MEMORY_GAME_COST, memoryGameUnlocked := true);
      var p := u.(prefs := u.prefs[MemGameKey := BoolPref(true)]);
      Outcome(Saved(Happy(p, now)), true)
  }

  /** feed() */
  function FeedStep(v: PetView, now: int): (r: Outcome)
    ensures v.Valid() ==> r.pet.Valid()
  {
    if v.isSleeping then Outcome(v, false)
    else if v.coins < FEED_COST then Outcome(InsufficientCoins(v, now), false)
    else if v.hunger > FULL_THRESHOLD then Outcome(Angry(v, now), false)
    else Outcome(Saved(Happy(v.(coins := v.coins - FEED_COST,
                                    hunger := Min(MAX_STAT, v.hunger + FEED_RESTORE),
                                    sleepiness := Max(0, v.sleepiness - FEED_TIREDNESS)), now)), true)
  }

  /** play() */
  function PlayStep(v: PetView, now: int): (r: Outcome)
    ensures v.Valid() ==> r.pet.Valid()
  {
    if v.isSleeping then Outcome(v, false)
    else Outcome(Saved(Happy(v.(hunger := Max(0, v.hunger - PLAY_HUNGER),
                                    sleepiness := Max(0, v.sleepiness - PLAY_TIREDNESS)), now)), true)
  }

  /** sleep() */
  function SleepStep(v: PetView, now: int): (r: Outcome)
    ensures v.Valid() ==> r.pet.Valid()
  {
    if v.isSleeping then Outcome(v, false)
    else if v.sleepiness > SLEEP_THRESHOLD then Outcome(Angry(v, now), false)
    else Outcome(Saved(v.(isSleeping := true, sleepStartTime := now)), true)
  }

  /** wakeUp() */
  function WakeStep(v: PetView, now: int): (r: PetView)
    ensures v.Valid() ==> r.Valid()
  {
    Saved(v.(isSleeping := false, sleepiness := MAX_STAT,
                 boredom := Min(MAX_STAT, v.boredom + WAKE_BOREDOM),
                 hunger := Max(0, v.hunger - WAKE_HUNGER), lastMinuteUpdate := now))
  }

  /** addCoins(amount) */
  function AddCoinsStep(v: PetView, amount: int): (r: PetView)
    ensures v.Valid() && amount >= 0 ==> r.Valid()
  {
    Saved(v.(coins := v.coins + amount))
  }

  /** addBoredom(amount) */
  function AddBoredomStep(v: PetView, amount: int): (r: PetView)
    ensures v.Valid() && amount >= 0 ==> r.Valid()
  {
    Saved(v.(boredom := Min(MAX_STAT, v.boredom + amount)))
  }

  /** The three clamped setters; they do not save. */
  function SetHungerStep(v: PetView, h: int): (r: PetView)
    ensures v.Valid() ==> r.Valid()
  {
    v.(hunger := Clamp(h))
  }

  function SetBoredomStep(v: PetView, b: int): (r: PetView)
    ensures v.Valid() ==> r.Valid()
  {
    v.(boredom := Clamp(b))
  }

  function SetSleepinessStep(v: PetView, s: int): (r: PetView)
    ensures v.Valid() ==> r.Valid()
  {
    v.(sleepiness := Clamp(s))
  }

  // ---------------------------------------------------------------------------------------------
  // The periodic update.

  /** The first part of update(): each flag that has been up for 3000 ms clears. */
  function ExpireFlags(v: PetView, now: int): (r: PetView)
    ensures v.Valid() ==> r.Valid()
  {
    var a := if v.showAngryFace && now - v.angryFaceTimer >= FLAG_DURATION
             then v.(showAngryFace := false) else v;
    var h := if a.showHappyFace && now - a.happyFaceTimer >= FLAG_DURATION
             then a.(showHappyFace := false) else a;
    if h.showInsufficientCoins && now - h.insufficientCoinsTimer >= FLAG_DURATION
    then h.(showInsufficientCoins := false) else h
  }

  /** updatePerMinute(): one decay step once 60000 ms have passed; an exhausted pet falls asleep. */
  function DecayStep(v: PetView, now: int): (r: PetView)
    ensures v.Valid() ==> r.Valid()
  {
    if now - v.lastMinuteUpdate >= MINUTE then
      var d := Decayed(v);
      var s := if d.sleepiness <= 0 && !d.isSleeping then SleepStep(d, now).pet else d;
      Saved(s.(lastMinuteUpdate := now))
    else v
  }

  /** One minute's loss of hunger, boredom and sleepiness, each floored at 0. */
  function Decayed(v: PetView): (r: PetView)
    ensures v.Valid() ==> r.Valid()
  {
    v.(hunger := Max(0, v.hunger - HUNGER_DECAY),
       boredom := Max(0, v.boredom - BOREDOM_DECAY),
       sleepiness := Max(0, v.sleepiness - SLEEPINESS_DECAY))
  }

  /** update(): expire the flags; a sleeping pet only wakes once its 10 minutes are over;
      an awake pet runs the decay tick. */
  function UpdateStep(v: PetView, now: int): (r: PetView)
    ensures v.Valid() ==> r.Valid()
  {
    var e := ExpireFlags(v, now);
    if e.isSleeping then
      if now - e.sleepStartTime >= SLEEP_DURATION then WakeStep(e, now) else e
    else DecayStep(e, now)
  }

  /** getMood(): happy flag, then low sleepiness, then the angry flag, then low hunger,
      then low boredom. */
  function Mood(v: PetView): (m: int)
    ensures m in {MOOD_DEFAULT, MOOD_ANGRY, MOOD_HAPPY, MOOD_SLEEPY, MOOD_SAD}
  {
    if v.showHappyFace then MOOD_HAPPY
    else if v.sleepiness < LOW_STAT then MOOD_SLEEPY
    else if v.showAngryFace then MOOD_ANGRY
    else if v.hunger < LOW_STAT then MOOD_ANGRY
    else if v.boredom < LOW_STAT then MOOD_SAD
    else MOOD_DEFAULT
  }

  // ---------------------------------------------------------------------------------------------
  // Properties of the actions.

  /** buyFood with a valid type spends the table's cost and restores the table's amount
      (capped at 100) exactly when the balance covers the cost; otherwise only the
      insufficient-coins flag and its timer change. Any other type changes nothing. */
  lemma BuyFoodContract(v: PetView, t: int, now: int)
    ensures var r := BuyFoodStep(v, t, now);
      && (!IsFood(t) ==> !r.ok && r.pet == v)
      && (IsFood(t) ==> (r.ok <==> v.coins >= FoodCost(t)))
      && (IsFood(t) && r.ok ==>
            && r.pet.coins == v.coins - FoodCost(t)
            && r.pet.hunger == Min(MAX_STAT, v.hunger + FoodRestore(t))
            && r.pet.showHappyFace && r.pet.happyFaceTimer == now
            && r.pet.isSleeping == v.isSleeping && r.pet.memoryGameUnlocked == v.memoryGameUnlocked
            && StatsOf(Loaded(r.pet)) == StatsOf(r.pet))
      && (IsFood(t) && !r.ok ==> r.pet == v.(showInsufficientCoins := true, insufficientCoinsTimer := now))
  {
  }

  /** The food table itself. */
  lemma FoodTable()
    ensures FoodCost(0) == 10 && FoodRestore(0) == 25
    ensures FoodCost(1) == 15 && FoodRestore(1) == 50
    ensures FoodCost(2) == 20 && FoodRestore(2) == 75
    ensures FoodCost(3) == 25 && FoodRestore(3) == 100
  {
  }

  /** feed checks, in order: asleep, fewer than 10 coins, hunger above 80; each rejection
      touches only its own flag. A meal shows the happy face from `now` and saves the stats. */
  lemma FeedContract(v: PetView, now: int)
    ensures var r := FeedStep(v, now);
      && (r.ok <==> !v.isSleeping && v.coins >= FEED_COST && v.hunger <= FULL_THRESHOLD)
      && (v.isSleeping ==> r.pet == v)
      && (!v.isSleeping && v.coins < FEED_COST ==> r.pet == InsufficientCoins(v, now))
      && (!v.isSleeping && v.coins >= FEED_COST && v.hunger > FULL_THRESHOLD ==> r.pet == Angry(v, now))
      && (r.ok ==> r.pet.coins == v.coins - FEED_COST
                   && r.pet.hunger == Min(MAX_STAT, v.hunger + FEED_RESTORE)
                   && r.pet.sleepiness == Max(0, v.sleepiness - FEED_TIREDNESS)
                   && r.pet.boredom == v.boredom && r.pet.showHappyFace && r.pet.happyFaceTimer == now
                   && r.pet.isSleeping == v.isSleeping && r.pet.memoryGameUnlocked == v.memoryGameUnlocked
                   && StatsOf(Loaded(r.pet)) == StatsOf(r.pet))
  {
  }

  /** play fails exactly when asleep; otherwise it tires the pet and leaves the balance alone. */
  lemma PlayContract(v: PetView, now: int)
    ensures var r := PlayStep(v, now);
      && (r.ok <==> !v.isSleeping)
      && (!r.ok ==> r.pet == v)
      && (r.ok ==> r.pet.hunger == Max(0, v.hunger - PLAY_HUNGER)
                   && r.pet.sleepiness == Max(0, v.sleepiness - PLAY_TIREDNESS)
                   && r.pet.coins == v.coins && r.pet.boredom == v.boredom
                   && r.pet.showHappyFace && r.pet.happyFaceTimer == now)
  {
  }

  /** sleep is a no-op when already asleep, sets the angry flag above sleepiness 25, and otherwise
      starts the sleep at `now`. */
  lemma SleepContract(v: PetView, now: int)
    ensures var r := SleepStep(v, now);
      && (r.ok <==> !v.isSleeping && v.sleepiness <= SLEEP_THRESHOLD)
      && (v.isSleeping ==> r.pet == v)
      && (!v.isSleeping && v.sleepiness > SLEEP_THRESHOLD ==> r.pet == Angry(v, now))
      && (r.ok ==> r.pet.isSleeping && r.pet.sleepStartTime == now && StatsOf(r.pet) == StatsOf(v).(sleeping := true))
  {
  }

  /** update wakes a sleeping pet exactly when its sleep has lasted 10 minutes; waking refills
      sleepiness, adds 20 boredom (capped) and takes 15 hunger (floored). A sleeping pet's stats
      do not change otherwise. */
  lemma UpdateWhileAsleep(v: PetView, now: int)
    requires v.isSleeping
    ensures var r := UpdateStep(v, now);
      && (now - v.sleepStartTime >= SLEEP_DURATION ==>
            && !r.isSleeping && r.sleepiness == MAX_STAT
            && r.boredom == Min(MAX_STAT, v.boredom + WAKE_BOREDOM)
            && r.hunger == Max(0, v.hunger - WAKE_HUNGER) && r.coins == v.coins)
      && (now - v.sleepStartTime < SLEEP_DURATION ==>
            r.isSleeping && StatsOf(r) == StatsOf(v) && r.prefs == v.prefs)
  {
  }

  /** The awake update decays the stats by 4, 2 and 1 (floored at 0) exactly when a minute has
      passed since the last decay, and puts a pet whose sleepiness reached 0 to sleep. */
  lemma UpdateWhileAwake(v: PetView, now: int)
    requires !v.isSleeping
    ensures var r := UpdateStep(v, now);
      && (now - v.lastMinuteUpdate >= MINUTE ==>
            && r.hunger == Max(0, v.hunger - HUNGER_DECAY)
            && r.boredom == Max(0, v.boredom - BOREDOM_DECAY)
            && r.sleepiness == Max(0, v.sleepiness - SLEEPINESS_DECAY)
            && r.lastMinuteUpdate == now
            && (r.isSleeping <==> r.sleepiness == 0))
      && (now - v.lastMinuteUpdate < MINUTE ==>
            StatsOf(r) == StatsOf(v) && r.prefs == v.prefs && r.lastMinuteUpdate == v.lastMinuteUpdate)
  {
    var e := ExpireFlags(v, now);
    FlagsExpire(v, now);
    assert UpdateStep(v, now) == DecayStep(e, now);
    if now - v.lastMinuteUpdate >= MINUTE {
      var d := Decayed(e);
      if d.sleepiness <= 0 {
        SleepContract(d, now);
      }
    }
  }

  /** Decay fires at most once in any 60000 ms window. */
  lemma DecayAtMostOncePerMinute(v: PetView, t1: int, t2: int)
    requires t1 - v.lastMinuteUpdate >= MINUTE
    requires t1 <= t2 < t1 + MINUTE
    ensures DecayStep(DecayStep(v, t1), t2) == DecayStep(v, t1)
  {
  }

  /** Each flag is down after update exactly when it was down before or has been up 3000 ms. */
  lemma FlagsExpire(v: PetView, now: int)
    ensures var r := ExpireFlags(v, now);
      && (r.showAngryFace <==> v.showAngryFace && now - v.angryFaceTimer < FLAG_DURATION)
      && (r.showHappyFace <==> v.showHappyFace && now - v.happyFaceTimer < FLAG_DURATION)
      && (r.showInsufficientCoins <==> v.showInsufficientCoins && now - v.insufficientCoinsTimer < FLAG_DURATION)
      && StatsOf(r) == StatsOf(v) && r.prefs == v.prefs
  {
  }

  /** The mood priority, with sleepiness checked before the angry flag. */
  lemma MoodPriority(v: PetView)
    ensures v.showHappyFace ==> Mood(v) == MOOD_HAPPY
    ensures !v.showHappyFace && v.sleepiness < LOW_STAT ==> Mood(v) == MOOD_SLEEPY
    ensures (!v.showHappyFace && v.sleepiness >= LOW_STAT && (v.showAngryFace || v.hunger < LOW_STAT))
            ==> Mood(v) == MOOD_ANGRY
    ensures (!v.showHappyFace && v.sleepiness >= LOW_STAT && !v.showAngryFace && v.hunger >= LOW_STAT
             && v.boredom < LOW_STAT) ==> Mood(v) == MOOD_SAD
    ensures Mood(v) == MOOD_DEFAULT <==>
            !v.showHappyFace && !v.showAngryFace && v.sleepiness >= LOW_STAT
            && v.hunger >= LOW_STAT && v.boredom >= LOW_STAT
  {
  }

  /** buyMemoryGame: refused once unlocked, flags insufficient coins below 50, otherwise spends
      50, persists the unlock and the stats, and shows the happy face. */
  lemma BuyMemoryGameContract(v: PetView, now: int)
    ensures var r := BuyMemoryGameStep(v, now);
      && (r.ok <==> !v.memoryGameUnlocked && v.coins >= MEMORY_GAME_COST)
      && (v.memoryGameUnlocked ==> r.pet == v)
      && (!v.memoryGameUnlocked && v.coins < MEMORY_GAME_COST ==> r.pet == InsufficientCoins(v, now))
      && (r.ok ==> r.pet.coins == v.coins - MEMORY_GAME_COST && r.pet.memoryGameUnlocked
                   && GetBool(r.pet.prefs, MemGameKey, false)
                   && r.pet.showHappyFace && r.pet.happyFaceTimer == now
                   && StatsOf(Loaded(r.pet)) == StatsOf(r.pet))
  {
  }

  /** The scenario of a fresh pet: feeding fails for want of coins, and after ten coins it fails
      again because the pet is full. */
  lemma FreshPetFeedTwice(now: int)
    ensures var r1 := FeedStep(NEW_PET, now);
      && !r1.ok && r1.pet.showInsufficientCoins
      && var r2 := FeedStep(AddCoinsStep(r1.pet, 10), now);
      && !r2.ok && r2.pet.showAngryFace && r2.pet.coins == 10
  {
  }

  // ---------------------------------------------------------------------------------------------
  // The pet as the object the source mutates.

  class Tamagotchi {
    var hunger: int
    var boredom: int
    var sleepiness: int
    var coins: int
    var memoryGameUnlocked: bool
    var lastMinuteUpdate: int
    var sleepStartTime: int
    var prefs: Store
    var isSleeping: bool
    var showAngryFace: bool
    var angryFaceTimer: int
    var showHappyFace: bool
    var happyFaceTimer: int
    var showInsufficientCoins: bool
    var insufficientCoinsTimer: int

    function Snap(): PetView
      reads this
    {
      PetView(hunger, boredom, sleepiness, coins, memoryGameUnlocked, isSleeping,
              showAngryFace, angryFaceTimer, showHappyFace, happyFaceTimer,
              showInsufficientCoins, insufficientCoinsTimer, lastMinuteUpdate, sleepStartTime, prefs)
    }

    ghost predicate Valid()
      reads this
    {
      Snap().Valid()
    }

    constructor()
      ensures Valid() && Snap() == NEW_PET
    {
      hunger, boredom, sleepiness := 100, 100, 100;
      coins := 0;
      memoryGameUnlocked := false;
      isSleeping := false;
      showAngryFace, angryFaceTimer := false, 0;
      showHappyFace, happyFaceTimer := false, 0;
      showInsufficientCoins, insufficientCoinsTimer := false, 0;
      lastMinuteUpdate, sleepStartTime := 0, 0;
      prefs := map[];
    }

    method SaveStats()
      modifies this
      ensures Snap() == Saved(old(Snap()))
    {
      prefs := prefs[HungerKey := IntPref(hunger)];
      prefs := prefs[BoredomKey := IntPref(boredom)];
      prefs := prefs[SleepKey := IntPref(sleepiness)];
      prefs := prefs[CoinsKey := IntPref(coins)];
      prefs := prefs[SleepingKey := BoolPref(isSleeping)];
    }

    method LoadStats()
      modifies this
      ensures Snap() == Loaded(old(Snap()))
    {
      hunger := GetInt(prefs, HungerKey, 100);
      boredom := GetInt(prefs, BoredomKey, 100);
      sleepiness := GetInt(prefs, SleepKey, 100);
      coins := GetInt(prefs, CoinsKey, 0);
      isSleeping := GetBool(prefs, SleepingKey, false);
    }

    /** `store` is what the namespace holds at boot. */
    method Initialize(store: Store, now: nat)
      requires Valid() && StoreOk(store)
      modifies this
      ensures Valid() && Snap() == InitializeStep(old(Snap()), store, now)
    {
      prefs := store;
      LoadStats();
      ReadUnlock(now);
      if isSleeping {
        SetAwake();
        SaveStats();
      }
    }

    /** The unlock flag read from the store, and the decay clock started at `now`. */
    method ReadUnlock(now: nat)
      modifies this
      ensures Snap() == old(Snap()).(memoryGameUnlocked := GetBool(prefs, MemGameKey, false), lastMinuteUpdate := now)
    {
      memoryGameUnlocked := GetBool(prefs, MemGameKey, false);
      lastMinuteUpdate := now;
    }

    method SetAwake()
      modifies this
      ensures Snap() == old(Snap()).(isSleeping := false)
    {
      isSleeping := false;
    }

    method BuyFood(t: int, now: nat) returns (ok: bool)
      requires Valid()
      modifies this
      ensures Valid()
      ensures Snap() == BuyFoodStep(old(Snap()), t, now).pet && ok == BuyFoodStep(old(Snap()), t, now).ok
    {
      var cost, restore;
      match t {
        case 0 => cost, restore := 10, 25;
        case 1 => cost, restore := 15, 50;
        case 2 => cost, restore := 20, 75;
        case 3 => cost, restore := 25, 100;
        case _ => return false;
      }
      assert IsFood(t) && cost == FoodCost(t) && restore == FoodRestore(t);
      if coins < cost {
        ShowInsufficientCoins(now);
        return false;
      }
      coins := coins - cost;
      hunger := Min(MAX_STAT, hunger + restore);
      ShowHappy(now);
      SaveStats();
      ok := true;
    }

    method BuyMemoryGame(now: nat) returns (ok: bool)
      requires Valid()
      modifies this
      ensures Valid()
      ensures Snap() == BuyMemoryGameStep(old(Snap()), now).pet && ok == BuyMemoryGameStep(old(Snap()), now).ok
    {
      if memoryGameUnlocked {
        return false;
      }
      if coins < MEMORY_GAME_COST {
        ShowInsufficientCoins(now);
        return false;
      }
      coins := coins - MEMORY_GAME_COST;
      memoryGameUnlocked := true;
      prefs := prefs[MemGameKey := BoolPref(true)];
      ShowHappy(now);
      SaveStats();
      ok := true;
    }

    method Update(now: nat)
      requires Valid()
      modifies this
      ensures Valid() && Snap() == UpdateStep(old(Snap()), now)
    {
      ExpireFlagsAt(now);
      if isSleeping {
        if now - sleepStartTime >= SLEEP_DURATION {
          WakeUp(now);
        }
        return;
      }
      UpdatePerMinute(now);
    }

    /** The three timed flags of update(): each is cleared once it has been up for three seconds. */
    method ExpireFlagsAt(now: nat)
      modifies this
      ensures Snap() == ExpireFlags(old(Snap()), now)
    {
      if showAngryFace && now - angryFaceTimer >= FLAG_DURATION {
        showAngryFace := false;
      }
      if showHappyFace && now - happyFaceTimer >= FLAG_DURATION {
        showHappyFace := false;
      }
      if showInsufficientCoins && now - insufficientCoinsTimer >= FLAG_DURATION {
        showInsufficientCoins := false;
      }
    }

    method UpdatePerMinute(now: nat)
      requires Valid()
      modifies this
      ensures Valid() && Snap() == DecayStep(old(Snap()), now)
    {
      if now - lastMinuteUpdate >= MINUTE {
        Decay();
        if sleepiness <= 0 && !isSleeping {
          var _ := Sleep(now);
        }
        StampMinute(now);
        SaveStats();
      }
    }

    /** One minute's loss of hunger, boredom and sleepiness. */
    method Decay()
      modifies this
      ensures Snap() == Decayed(old(Snap()))
    {
      hunger := Max(0, hunger - HUNGER_DECAY);
      boredom := Max(0, boredom - BOREDOM_DECAY);
      sleepiness := Max(0, sleepiness - SLEEPINESS_DECAY);
    }

    method StampMinute(now: nat)
      modifies this
      ensures Snap() == old(Snap()).(lastMinuteUpdate := now)
    {
      lastMinuteUpdate := now;
    }

    method Feed(now: nat) returns (ok: bool)
      requires Valid()
      modifies this
      ensures Valid()
      ensures Snap() == FeedStep(old(Snap()), now).pet && ok == FeedStep(old(Snap()), now).ok
    {
      if isSleeping {
        return false;
      }
      if coins < FEED_COST {
        ShowInsufficientCoins(now);
        return false;
      }
      if hunger > FULL_THRESHOLD {
        ShowAngry(now);
        return false;
      }
      coins := coins - FEED_COST;
      hunger := Min(MAX_STAT, hunger + FEED_RESTORE);
      sleepiness := Max(0, sleepiness - FEED_TIREDNESS);
      ShowHappy(now);
      SaveStats();
      ok := true;
    }

    method Play(now: nat) returns (ok: bool)
      requires Valid()
      modifies this
      ensures Valid()
      ensures Snap() == PlayStep(old(Snap()), now).pet && ok == PlayStep(old(Snap()), now).ok
    {
      if isSleeping {
        return false;
      }
      hunger := Max(0, hunger - PLAY_HUNGER);
      sleepiness := Max(0, sleepiness - PLAY_TIREDNESS);
      ShowHappy(now);
      SaveStats();
      ok := true;
    }

    method Sleep(now: nat) returns (ok: bool)
      requires Valid()
      modifies this
      ensures Valid()
      ensures Snap() == SleepStep(old(Snap()), now).pet && ok == SleepStep(old(Snap()), now).ok
    {
      if isSleeping {
        return false;
      }
      if sleepiness > SLEEP_THRESHOLD {
        ShowAngry(now);
        return false;
      }
      isSleeping := true;
      sleepStartTime := now;
      SaveStats();
      ok := true;
    }

    method WakeUp(now: nat)
      requires Valid()
      modifies this
      ensures Valid() && Snap() == WakeStep(old(Snap()), now)
    {
      Rouse(now);
      SaveStats();
    }

    /** The assignments of wakeUp(), before the stats are saved. */
    method Rouse(now: nat)
      modifies this
      ensures Snap() == old(Snap()).(isSleeping := false, sleepiness := MAX_STAT,
                                     boredom := Min(MAX_STAT, old(boredom) + WAKE_BOREDOM),
                                     hunger := Max(0, old(hunger) - WAKE_HUNGER), lastMinuteUpdate := now)
    {
      isSleeping := false;
      sleepiness := MAX_STAT;
      boredom := Min(MAX_STAT, boredom + WAKE_BOREDOM);
      hunger := Max(0, hunger - WAKE_HUNGER);
      lastMinuteUpdate := now;
    }

    /** The happy face, the angry face and the insufficient-coins message: each is a flag with
        the time it was raised. */
    method ShowHappy(now: nat)
      modifies this
      ensures Snap() == Happy(old(Snap()), now)
    {
      showHappyFace := true;
      happyFaceTimer := now;
    }

    method ShowAngry(now: nat)
      modifies this
      ensures Snap() == Angry(old(Snap()), now)
    {
      showAngryFace := true;
      angryFaceTimer := now;
    }

    method ShowInsufficientCoins(now: nat)
      modifies this
      ensures Snap() == InsufficientCoins(old(Snap()), now)
    {
      showInsufficientCoins := true;
      insufficientCoinsTimer := now;
    }

    /** The shop lowers the insufficient-coins flag after a purchase that went through. */
    method ClearInsufficientCoins()
      modifies this
      ensures Snap() == old(Snap()).(showInsufficientCoins := false)
    {
      showInsufficientCoins := false;
    }

    method AddCoins(amount: int)
      requires Valid() && amount >= 0
      modifies this
      ensures Valid() && Snap() == AddCoinsStep(old(Snap()), amount)
    {
      coins := coins + amount;
      SaveStats();
    }

    method AddBoredom(amount: int)
      requires Valid() && amount >= 0
      modifies this
      ensures Valid() && Snap() == AddBoredomStep(old(Snap()), amount)
    {
      boredom := Min(MAX_STAT, boredom + amount);
      SaveStats();
    }

    method SetHunger(h: int)
      requires Valid()
      modifies this
      ensures Valid() && Snap() == SetHungerStep(old(Snap()), h)
    {
      hunger := Clamp(h);
    }

    method SetBoredom(b: int)
      requires Valid()
      modifies this
      ensures Valid() && Snap() == SetBoredomStep(old(Snap()), b)
    {
      boredom := Clamp(b);
    }

    method SetSleepiness(s: int)
      requires Valid()
      modifies this
      ensures Valid() && Snap() == SetSleepinessStep(old(Snap()), s)
    {
      sleepiness := Clamp(s);
    }
  }
}
