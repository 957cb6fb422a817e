/** The three-button memory game (src/memorygame.cpp, MAX_SEQUENCE from include/memorygame.h):
    the player repeats a growing sequence of button symbols 0, 1 and 2. */
module Memory {

  const MAX_SEQUENCE: int := 20
  const NUM_BUTTONS: int := 3
  const START_TIMEOUT: int := 3000
  const TIMEOUT_STEP: int := 200
  const MIN_TIMEOUT: int := 1000
  const POINTS_PER_INPUT: int := 10
  const ROUND_PAUSE: int := 1000   // the delay(1000) before the next round is shown

  function Min(a: int, b: int): int { if a <= b then a else b }
  function Max(a: int, b: int): int { if a >= b then a else b }

  datatype MemoryView = MemoryView(
    sequence: seq<int>, sequenceLength: int, currentIndex: int, score: int, level: int,
    waitingForInput: bool, lastInput: int, inputTimeout: int, lastInputTime: int)
  {
    /** The stored symbols are buttons, the index is in the sequence while input is awaited, and
        the timeout never goes below one second. */
    predicate Valid()
    {
      && |sequence| == MAX_SEQUENCE
      && 0 <= sequenceLength <= MAX_SEQUENCE
      && (forall j :: 0 <= j < sequenceLength ==> 0 <= sequence[j] < NUM_BUTTONS)
      && 0 <= currentIndex
      && (waitingForInput ==> currentIndex < sequenceLength)
      && inputTimeout >= MIN_TIMEOUT
      && score >= 0 && level >= 1
    }

    /** Once a game has been reset, the sequence is as long as the level, up to MAX_SEQUENCE. */
    predicate Started()
    {
      sequenceLength == Min(level, MAX_SEQUENCE)
    }
  }

  /** addToSequence(): append the rolled symbol while there is room. */
  function AddStep(v: MemoryView, roll: int): (r: MemoryView)
    requires v.Valid() && 0 <= roll < NUM_BUTTONS
    ensures r.Valid()
  {
    if v.sequenceLength < MAX_SEQUENCE
    then v.(sequence := v.sequence[v.sequenceLength := roll], sequenceLength := v.sequenceLength + 1)
    else v
  }

  /** playSequence(): start awaiting the sequence from its first symbol. */
  function PlayStep(v: MemoryView, now: int): MemoryView
  {
    v.(currentIndex := 0, waitingForInput := true, lastInputTime := now)
  }

  function IncreaseLevelStep(v: MemoryView): MemoryView
  {
    v.(level := v.level + 1, inputTimeout := Max(v.inputTimeout - TIMEOUT_STEP, MIN_TIMEOUT))
  }

  function GameOverStep(v: MemoryView): MemoryView
  {
    v.(waitingForInput := false)
  }

  /** reset(): a one-symbol sequence at level 1, awaiting input; the timeout is kept. */
  function ResetStep(v: MemoryView, now: int, roll: int): (r: MemoryView)
    requires v.Valid() && 0 <= roll < NUM_BUTTONS
    ensures r.Valid() && r.Started()
  {
    var z := v.(sequenceLength := 0, currentIndex := 0, score := 0, level := 1, lastInput := -1,
                waitingForInput := false);
    PlayStep(AddStep(z, roll), now)
  }

  /** update(now): the game ends once input has been awaited for the whole timeout. */
  function UpdateStep(v: MemoryView, now: int): (r: MemoryView)
    ensures v.Valid() ==> r.Valid()
  {
    if v.waitingForInput && now - v.lastInputTime >= v.inputTimeout then GameOverStep(v) else v
  }

  /** registerInput(button): a correct button scores and advances; completing the sequence
      starts the next, longer round at now + ROUND_PAUSE; a wrong button ends the game. */
  function RegisterStep(v: MemoryView, button: int, now: int, roll: int): (r: MemoryView)
    requires v.Valid() && 0 <= roll < NUM_BUTTONS
    ensures r.Valid()
  {
    if !v.waitingForInput then v
    else
      var w := v.(lastInput := button);
      if button == v.sequence[v.currentIndex] then
        var c := w.(score := w.score + POINTS_PER_INPUT, currentIndex := w.currentIndex + 1);
        if c.currentIndex >= c.sequenceLength
        then PlayStep(IncreaseLevelStep(AddStep(c.(currentIndex := 0), roll)).(lastInputTime := now),
                      now + ROUND_PAUSE)
        else c
      else GameOverStep(w)
  }

  // ---------------------------------------------------------------------------------------------
  // Properties.

  lemma ResetStartsRound(v: MemoryView, now: int, roll: int)
    requires v.Valid() && 0 <= roll < NUM_BUTTONS
    ensures var r := ResetStep(v, now, roll);
      && r.sequenceLength == 1 && r.sequence[0] == roll && r.level == 1 && r.score == 0
      && r.currentIndex == 0 && r.waitingForInput && r.lastInputTime == now
      && r.inputTimeout == v.inputTimeout
  {
  }

  lemma IgnoredWhenNotWaiting(v: MemoryView, button: int, now: int, roll: int)
    requires v.Valid() && 0 <= roll < NUM_BUTTONS && !v.waitingForInput
    ensures RegisterStep(v, button, now, roll) == v
  {
  }

  /** A correct button mid-sequence scores 10 and moves to the next symbol. */
  lemma CorrectInputAdvances(v: MemoryView, now: int, roll: int)
    requires v.Valid() && 0 <= roll < NUM_BUTTONS && v.waitingForInput
    requires v.currentIndex + 1 < v.sequenceLength
    ensures var r := RegisterStep(v, v.sequence[v.currentIndex], now, roll);
      && r.score == v.score + POINTS_PER_INPUT && r.currentIndex == v.currentIndex + 1
      && r.waitingForInput && r.level == v.level && r.sequence == v.sequence
      && r.sequenceLength == v.sequenceLength && r.lastInputTime == v.lastInputTime
  {
  }

  /** The correct last button scores 10, grows the sequence by the rolled symbol while it has
      room, raises the level and restarts from the first symbol. */
  lemma CorrectInputCompletesRound(v: MemoryView, now: int, roll: int)
    requires v.Valid() && 0 <= roll < NUM_BUTTONS && v.waitingForInput
    requires v.currentIndex + 1 == v.sequenceLength
    ensures var r := RegisterStep(v, v.sequence[v.currentIndex], now, roll);
      && r.score == v.score + POINTS_PER_INPUT && r.currentIndex == 0 && r.waitingForInput
      && r.level == v.level + 1
      && r.sequenceLength == Min(v.sequenceLength + 1, MAX_SEQUENCE)
      && r.sequence[..v.sequenceLength] == v.sequence[..v.sequenceLength]
      && (v.sequenceLength < MAX_SEQUENCE ==> r.sequence[v.sequenceLength] == roll)
      && r.inputTimeout == Max(v.inputTimeout - TIMEOUT_STEP, MIN_TIMEOUT)
      && r.lastInputTime == now + ROUND_PAUSE
  {
  }

  /** A wrong button at any index ends the game and changes nothing else but the last input. */
  lemma WrongInputEndsGame(v: MemoryView, button: int, now: int, roll: int)
    requires v.Valid() && 0 <= roll < NUM_BUTTONS && v.waitingForInput
    requires button != v.sequence[v.currentIndex]
    ensures RegisterStep(v, button, now, roll) == v.(waitingForInput := false, lastInput := button)
  {
  }

  /** The sequence stays as long as the level (capped at MAX_SEQUENCE) under every operation. */
  lemma StartedIsInvariant(v: MemoryView, button: int, now: int, roll: int)
    requires v.Valid() && v.Started() && 0 <= roll < NUM_BUTTONS
    ensures RegisterStep(v, button, now, roll).Started()
    ensures UpdateStep(v, now).Started()
  {
  }

  /** update ends the game exactly when input was awaited for at least the timeout. */
  lemma UpdateTimesOut(v: MemoryView, now: int)
    ensures UpdateStep(v, now).waitingForInput <==>
            v.waitingForInput && now - v.lastInputTime < v.inputTimeout
    ensures UpdateStep(v, now) == v.(waitingForInput := UpdateStep(v, now).waitingForInput)
  {
  }

  /** The game after `k` calls of increaseLevel(), the step each completed round takes. */
  function LevelUps(v: MemoryView, k: nat): MemoryView
  {
    if k == 0 then v else IncreaseLevelStep(LevelUps(v, k - 1))
  }

  /** Each level-up takes 200 ms off the timeout, never going below 1000 ms. */
  lemma {:induction false} TimeoutShrinks(v: MemoryView, k: nat)
    requires v.inputTimeout >= MIN_TIMEOUT
    ensures LevelUps(v, k).inputTimeout == Max(v.inputTimeout - TIMEOUT_STEP * k, MIN_TIMEOUT)
    ensures LevelUps(v, k).level == v.level + k
  {
    if k > 0 {
      TimeoutShrinks(v, k - 1);
    }
  }

  /** Enter `inputs` one at a time, all at time `now` with roll `roll`. */
  function RegisterAll(v: MemoryView, inputs: seq<int>, now: int, roll: int): (r: MemoryView)
    requires v.Valid() && 0 <= roll < NUM_BUTTONS
    ensures r.Valid()
    decreases |inputs|
  {
    if inputs == [] then v else RegisterAll(RegisterStep(v, inputs[0], now, roll), inputs[1..], now, roll)
  }

  /** Entering the symbols from the current index to the end of the sequence completes the round:
      the score grows by 10 per symbol, the level by one and the sequence by one symbol. */
  lemma {:induction false} RepeatingCompletesRound(v: MemoryView, now: int, roll: int)
    requires v.Valid() && 0 <= roll < NUM_BUTTONS && v.waitingForInput
    ensures var n := v.sequenceLength - v.currentIndex;
      var r := RegisterAll(v, v.sequence[v.currentIndex..v.sequenceLength], now, roll);
      && r.waitingForInput && r.currentIndex == 0 && r.level == v.level + 1
      && r.score == v.score + POINTS_PER_INPUT * n
      && r.sequenceLength == Min(v.sequenceLength + 1, MAX_SEQUENCE)
      && r.sequence[..v.sequenceLength] == v.sequence[..v.sequenceLength]
    decreases v.sequenceLength - v.currentIndex
  {
    var ins := v.sequence[v.currentIndex..v.sequenceLength];
    var w := RegisterStep(v, ins[0], now, roll);
    if v.currentIndex + 1 < v.sequenceLength {
      CorrectInputAdvances(v, now, roll);
      assert ins[1..] == w.sequence[w.currentIndex..w.sequenceLength];
      RepeatingCompletesRound(w, now, roll);
    } else {
      CorrectInputCompletesRound(v, now, roll);
      assert ins[1..] == [];
    }
  }

  // ---------------------------------------------------------------------------------------------
  // The game as the object the source mutates.

  class MemoryGame {
    const sequence: array<int>
    var sequenceLength: int
    var currentIndex: int
    var score: int
    var level: int
    var waitingForInput: bool
    var lastInput: int
    var inputTimeout: int
    var lastInputTime: int

    function Snap(): MemoryView
      reads this, sequence
    {
      MemoryView(sequence[..], sequenceLength, currentIndex, score, level, waitingForInput, lastInput,
                 inputTimeout, lastInputTime)
    }

    ghost predicate Valid()
      reads this, sequence
    {
      Snap().Valid()
    }

    /** The source leaves the symbols uninitialised; here they are 0. */
    constructor()
      ensures Valid() && fresh(sequence)
      ensures Snap() == MemoryView(seq(MAX_SEQUENCE, _ => 0), 0, 0, 0, 1, false, -1, START_TIMEOUT, 0)
    {
      sequence := new int[MAX_SEQUENCE](_ => 0);
      sequenceLength := 0;
      currentIndex := 0;
      score := 0;
      level := 1;
      waitingForInput := false;
      lastInput := -1;
      inputTimeout := START_TIMEOUT;
      lastInputTime := 0;
    }

    method Reset(now: nat, roll: int)
      requires Valid() && 0 <= roll < NUM_BUTTONS
      modifies this, sequence
      ensures Valid() && Snap() == ResetStep(old(Snap()), now, roll)
    {
      sequenceLength := 0;
      currentIndex := 0;
      score := 0;
      level := 1;
      lastInput := -1;
      waitingForInput := false;
      AddToSequence(roll);
      PlaySequence(now);
    }

    method Update(now: nat)
      requires Valid()
      modifies this
      ensures Valid() && Snap() == UpdateStep(old(Snap()), now)
    {
      if waitingForInput {
        if now - lastInputTime >= inputTimeout {
          CheckGameOver();
        }
      }
    }

    method AddToSequence(roll: int)
      requires Valid() && 0 <= roll < NUM_BUTTONS
      modifies this, sequence
      ensures Valid() && Snap() == AddStep(old(Snap()), roll)
    {
      if sequenceLength < MAX_SEQUENCE {
        sequence[sequenceLength] := roll;
        sequenceLength := sequenceLength + 1;
      }
    }

    method RegisterInput(button: int, now: nat, roll: int)
      requires Valid() && 0 <= roll < NUM_BUTTONS
      modifies this, sequence
      ensures Valid() && Snap() == RegisterStep(old(Snap()), button, now, roll)
    {
      if !waitingForInput {
        return;
      }
      lastInput := button;
      if button == sequence[currentIndex] {
        score := score + POINTS_PER_INPUT;
        currentIndex := currentIndex + 1;
        if currentIndex >= sequenceLength {
          currentIndex := 0;
          AddToSequence(roll);
          IncreaseLevel();
          lastInputTime := now;
          PlaySequence(now + ROUND_PAUSE);
        }
      } else {
        CheckGameOver();
      }
    }

    method PlaySequence(now: nat)
      modifies this
      ensures Snap() == PlayStep(old(Snap()), now)
    {
      currentIndex := 0;
      waitingForInput := true;
      lastInputTime := now;
    }

    method IncreaseLevel()
      modifies this
      ensures Snap() == IncreaseLevelStep(old(Snap()))
    {
      level := level + 1;
      inputTimeout := Max(inputTimeout - TIMEOUT_STEP, MIN_TIMEOUT);
    }

    method CheckGameOver()
      modifies this
      ensures Snap() == GameOverStep(old(Snap()))
    {
      waitingForInput := false;
    }
  }
}
