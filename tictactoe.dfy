/** Tic-tac-toe against the pet (src/tictactoe.cpp, enums from include/tictactoe.h). The source's
    3 x 3 board is stored row-major in nine cells: cell (y, x) is at index 3 * y + x. */
module TicTacToe {

  datatype Cell = Empty | Player | Pet
  datatype State = Idle | PlayerTurn | PetTurn | GameOver
  datatype GameResult = NoResult | PlayerWin | PetWin | Draw

  const CELLS: int := 9
  const BLOCK_CHANCE: int := 85   // the pet blocks when its roll in [0, 100) is below this

  type Board = seq<Cell>

  /** The eight lines as cell indices, in the order the source examines them: the rows top to
      bottom, the columns left to right, the main diagonal and the anti-diagonal (from the top
      right corner down). */
  const LINES: seq<seq<int>> :=
    [[0, 1, 2], [3, 4, 5], [6, 7, 8], [0, 3, 6], [1, 4, 7], [2, 5, 8], [0, 4, 8], [2, 4, 6]]

  const EMPTY_BOARD: Board := [Empty, Empty, Empty, Empty, Empty, Empty, Empty, Empty, Empty]

  lemma LinesWellFormed()
    ensures |LINES| == 8
    ensures forall k :: 0 <= k < 8 ==> |LINES[k]| == 3
    ensures forall k, j :: 0 <= k < 8 && 0 <= j < 3 ==> 0 <= LINES[k][j] < CELLS
    ensures forall k :: 0 <= k < 8 ==>
      LINES[k][0] != LINES[k][1] && LINES[k][0] != LINES[k][2] && LINES[k][1] != LINES[k][2]
  {
  }

  predicate Owns(b: Board, line: seq<int>, c: Cell)
    requires |b| == CELLS && |line| == 3 && forall j :: 0 <= j < 3 ==> 0 <= line[j] < CELLS
  {
    b[line[0]] == c && b[line[1]] == c && b[line[2]] == c
  }

  /** Some line holds three of `c`. */
  predicate Won(b: Board, c: Cell)
    requires |b| == CELLS
  {
    LinesWellFormed();
    exists k :: 0 <= k < 8 && Owns(b, LINES[k], c)
  }

  /** A line of three is one of the rows, columns or diagonals. */
  lemma WonByLine(b: Board, c: Cell)
    requires |b| == CELLS
    ensures Won(b, c) <==>
      || (b[0] == c && b[1] == c && b[2] == c)
      || (b[3] == c && b[4] == c && b[5] == c)
      || (b[6] == c && b[7] == c && b[8] == c)
      || (b[0] == c && b[3] == c && b[6] == c)
      || (b[1] == c && b[4] == c && b[7] == c)
      || (b[2] == c && b[5] == c && b[8] == c)
      || (b[0] == c && b[4] == c && b[8] == c)
      || (b[2] == c && b[4] == c && b[6] == c)
  {
    LinesWellFormed();
    if Won(b, c) {
      var k :| 0 <= k < 8 && Owns(b, LINES[k], c);
      assert k == 0 || k == 1 || k == 2 || k == 3 || k == 4 || k == 5 || k == 6 || k == 7;
    }
    assert Owns(b, LINES[0], c) == (b[0] == c && b[1] == c && b[2] == c);
    assert Owns(b, LINES[1], c) == (b[3] == c && b[4] == c && b[5] == c);
    assert Owns(b, LINES[2], c) == (b[6] == c && b[7] == c && b[8] == c);
    assert Owns(b, LINES[3], c) == (b[0] == c && b[3] == c && b[6] == c);
    assert Owns(b, LINES[4], c) == (b[1] == c && b[4] == c && b[7] == c);
    assert Owns(b, LINES[5], c) == (b[2] == c && b[5] == c && b[8] == c);
    assert Owns(b, LINES[6], c) == (b[0] == c && b[4] == c && b[8] == c);
    assert Owns(b, LINES[7], c) == (b[2] == c && b[4] == c && b[6] == c);
  }

  /** checkWinner(c): a row, a column or a diagonal holds three of `c`. */
  function CheckWinner(b: Board, c: Cell): (r: bool)
    requires |b| == CELLS
    ensures r <==> Won(b, c)
  {
    WonByLine(b, c);
    || (b[0] == c && b[1] == c && b[2] == c)
    || (b[3] == c && b[4] == c && b[5] == c)
    || (b[6] == c && b[7] == c && b[8] == c)
    || (b[0] == c && b[3] == c && b[6] == c)
    || (b[1] == c && b[4] == c && b[7] == c)
    || (b[2] == c && b[5] == c && b[8] == c)
    || (b[0] == c && b[4] == c && b[8] == c)
    || (b[2] == c && b[4] == c && b[6] == c)
  }

  /** The indices of the empty cells among the first `n`, in row-major order. */
  function EmptiesUpTo(b: Board, n: nat): seq<int>
    requires n <= |b|
  {
    if n == 0 then [] else EmptiesUpTo(b, n - 1) + (if b[n - 1] == Empty then [n - 1] else [])
  }

  function Empties(b: Board): seq<int>
    requires |b| == CELLS
  {
    EmptiesUpTo(b, CELLS)
  }

  function FilledCount(b: Board): int
    requires |b| == CELLS
  {
    CELLS - |Empties(b)|
  }

  /** EmptiesUpTo lists exactly the empty cells below `n`, each once, in increasing order. */
  lemma {:induction false} EmptiesListed(b: Board, n: nat)
    requires n <= |b|
    ensures forall i :: i in EmptiesUpTo(b, n) <==> 0 <= i < n && b[i] == Empty
    ensures forall p, q :: 0 <= p < q < |EmptiesUpTo(b, n)| ==> EmptiesUpTo(b, n)[p] < EmptiesUpTo(b, n)[q]
    ensures |EmptiesUpTo(b, n)| <= n
  {
    if n > 0 {
      EmptiesListed(b, n - 1);
      var e := EmptiesUpTo(b, n - 1);
      forall p | 0 <= p < |e| ensures e[p] < n - 1 {
        assert e[p] in e;
      }
    }
  }

  /** Filling one empty cell removes exactly that cell from the list of empty cells' count. */
  lemma {:induction false} FillOne(b: Board, i: int, c: Cell, n: nat)
    requires n <= |b| && 0 <= i < |b| && b[i] == Empty && c != Empty
    ensures |EmptiesUpTo(b[i := c], n)| == |EmptiesUpTo(b, n)| - (if i < n then 1 else 0)
  {
    if n > 0 {
      FillOne(b, i, c, n - 1);
    }
  }

  /** isBoardFull(): no cell is empty. */
  function IsBoardFull(b: Board): (r: bool)
    requires |b| == CELLS
    ensures r <==> FilledCount(b) == CELLS
  {
    EmptiesListed(b, CELLS);
    if Empties(b) != [] then assert Empties(b)[0] in Empties(b); false
    else forall i :: 0 <= i < CELLS ==> b[i] != Empty
  }

  /** checkGameOver(): a player line wins first, then a pet line, then a full board draws. */
  function CheckGameOver(b: Board): (r: GameResult)
    requires |b| == CELLS
    ensures r == PlayerWin <==> Won(b, Player)
    ensures r == PetWin <==> !Won(b, Player) && Won(b, Pet)
    ensures r == Draw <==> !Won(b, Player) && !Won(b, Pet) && FilledCount(b) == CELLS
    ensures r == NoResult <==> !Won(b, Player) && !Won(b, Pet) && FilledCount(b) < CELLS
  {
    EmptiesListed(b, CELLS);
    if CheckWinner(b, Player) then PlayerWin
    else if CheckWinner(b, Pet) then PetWin
    else if IsBoardFull(b) then Draw
    else NoResult
  }

  // ---------------------------------------------------------------------------------------------
  // The pet's move.

  predicate LineOk(line: seq<int>)
  {
    |line| == 3 && forall j :: 0 <= j < 3 ==> 0 <= line[j] < CELLS
  }

  /** The number of cells equal to `c` among the first `n` cells of `line`. */
  function CountIn(b: Board, line: seq<int>, c: Cell, n: nat): nat
    requires |b| == CELLS && LineOk(line) && n <= 3
  {
    if n == 0 then 0 else CountIn(b, line, c, n - 1) + (if b[line[n - 1]] == c then 1 else 0)
  }

  /** The position in `line` of the last empty cell among its first `n`, or -1. */
  function LastEmptyIn(b: Board, line: seq<int>, n: nat): (e: int)
    requires |b| == CELLS && LineOk(line) && n <= 3
    ensures -1 <= e < n
  {
    if n == 0 then -1 else if b[line[n - 1]] == Empty then n - 1 else LastEmptyIn(b, line, n - 1)
  }

  lemma {:induction false} LastEmptyIsEmpty(b: Board, line: seq<int>, n: nat)
    requires |b| == CELLS && LineOk(line) && n <= 3 && CountIn(b, line, Empty, n) >= 1
    ensures 0 <= LastEmptyIn(b, line, n) && b[line[LastEmptyIn(b, line, n)]] == Empty
  {
    if b[line[n - 1]] != Empty {
      LastEmptyIsEmpty(b, line, n - 1);
    }
  }

  lemma CountInLine(b: Board, line: seq<int>, c: Cell)
    requires |b| == CELLS && LineOk(line)
    ensures CountIn(b, line, c, 3) ==
      (if b[line[0]] == c then 1 else 0) + (if b[line[1]] == c then 1 else 0) + (if b[line[2]] == c then 1 else 0)
  {
    assert CountIn(b, line, c, 1) == (if b[line[0]] == c then 1 else 0);
    assert CountIn(b, line, c, 2) == CountIn(b, line, c, 1) + (if b[line[1]] == c then 1 else 0);
  }

  /** Two cells of `owner` and one empty cell. */
  predicate Completable(b: Board, line: seq<int>, owner: Cell)
    requires |b| == CELLS && LineOk(line)
  {
    CountIn(b, line, owner, 3) == 2 && CountIn(b, line, Empty, 3) == 1
  }

  /** The index of the first line from `k` on that `owner` could complete, or 8. */
  function FirstCompletable(b: Board, owner: Cell, k: nat): (r: nat)
    requires |b| == CELLS && k <= 8
    ensures k <= r <= 8
    ensures r < 8 ==> Completable(b, LINES[r], owner)
    ensures forall j :: k <= j < r ==> !Completable(b, LINES[j], owner)
    decreases 8 - k
  {
    LinesWellFormed();
    if k == 8 then 8 else if Completable(b, LINES[k], owner) then k else FirstCompletable(b, owner, k + 1)
  }

  predicate CanComplete(b: Board, owner: Cell)
    requires |b| == CELLS
  {
    FirstCompletable(b, owner, 0) < 8
  }

  /** The empty cell of the first line `owner` could complete. */
  function CompletionCell(b: Board, owner: Cell): (i: int)
    requires |b| == CELLS && CanComplete(b, owner)
    ensures 0 <= i < CELLS && b[i] == Empty
  {
    LinesWellFormed();
    var line := LINES[FirstCompletable(b, owner, 0)];
    LastEmptyIsEmpty(b, line, 3);
    line[LastEmptyIn(b, line, 3)]
  }

  /** randomMove(choice): the pet takes the `choice`-th empty cell in row-major order. */
  function RandomStep(b: Board, choice: int): (r: Board)
    requires |b| == CELLS && ChoiceOk(b, choice)
    ensures |r| == CELLS
  {
    EmptiesListed(b, CELLS);
    assert |Empties(b)| > 0 ==> Empties(b)[choice] in Empties(b);
    if |Empties(b)| > 0 then b[Empties(b)[choice] := Pet] else b
  }

  predicate ChoiceOk(b: Board, choice: int)
    requires |b| == CELLS
  {
    0 <= choice && (|Empties(b)| > 0 ==> choice < |Empties(b)|)
  }

  /** tamagotchiMove(): win if possible; else block when the roll is below 85 and a block exists;
      else a random empty cell. */
  function PetMove(b: Board, blockRoll: int, choice: int): (r: Board)
    requires |b| == CELLS && ChoiceOk(b, choice)
    ensures |r| == CELLS
  {
    if CanComplete(b, Pet) then b[CompletionCell(b, Pet) := Pet]
    else if blockRoll < BLOCK_CHANCE && CanComplete(b, Player) then b[CompletionCell(b, Player) := Pet]
    else RandomStep(b, choice)
  }

  // ---------------------------------------------------------------------------------------------
  // The game's fields as a value.

  datatype TttView = TttView(
    board: Board, cursorX: int, cursorY: int, state: State, result: GameResult,
    playerFirst: bool, movesCount: int, wins: int, draws: int, losses: int,
    prefs: map<string, int>)
  {
    /** The cursor is on the board, the move counter counts the filled cells, a game in
        progress has no result yet, and a finished game records the board's result. */
    predicate Valid()
    {
      && |board| == CELLS
      && 0 <= cursorX < 3 && 0 <= cursorY < 3
      && state != Idle
      && movesCount == FilledCount(board)
      && (state != GameOver ==> result == NoResult && CheckGameOver(board) == NoResult)
      && (state == GameOver ==> result == CheckGameOver(board) && result != NoResult)
      && wins >= 0 && draws >= 0 && losses >= 0
      && StatsStored(prefs)
    }
  }

  predicate StatsStored(prefs: map<string, int>)
  {
    && ("wins" in prefs ==> prefs["wins"] >= 0)
    && ("draws" in prefs ==> prefs["draws"] >= 0)
    && ("losses" in prefs ==> prefs["losses"] >= 0)
  }

  function GetInt(prefs: map<string, int>, key: string, default: int): int
  {
    if key in prefs then prefs[key] else default
  }

  function Cursor(v: TttView): int
  {
    3 * v.cursorY + v.cursorX
  }

  /** A game with the outcome of the board after a move. */
  function AfterMove(v: TttView, b: Board): TttView
    requires |b| == CELLS
  {
    var r := CheckGameOver(b);
    v.(board := b, movesCount := v.movesCount + 1, result := r,
       state := if r != NoResult then GameOver else if v.state == PlayerTurn then PetTurn else PlayerTurn)
  }

  /** reset(starterRoll): an empty board, the cursor in the centre, the roll 0 lets the player
      start. */
  function ResetStep(v: TttView, starterRoll: int): TttView
  {
    v.(board := EMPTY_BOARD, cursorX := 1, cursorY := 1, playerFirst := starterRoll == 0,
       movesCount := 0, result := NoResult,
       state := if starterRoll == 0 then PlayerTurn else PetTurn)
  }

  /** `n` reduced modulo nine, written out for the two ranges the cursor search reaches. */
  function Wrap(n: int): (r: int)
    ensures 0 <= r < CELLS
  {
    if 0 <= n < CELLS then n else if CELLS <= n < 2 * CELLS then n - CELLS else n % 9
  }

  /** The cell `f` steps after `p` in cyclic row-major order. */
  function Ahead(b: Board, p: int, f: int): Cell
    requires |b| == CELLS
  {
    b[Wrap(p + f)]
  }

  /** The number of steps the search of moveCursor() takes from `p`, having already looked `d`
      steps ahead: up to the first empty cell, at most nine. */
  function ScanDistance(b: Board, p: int, d: int): (e: int)
    requires |b| == CELLS && 1 <= d <= CELLS
    ensures d <= e <= CELLS
    ensures Ahead(b, p, e) == Empty || e == CELLS
    ensures forall f :: d <= f < e ==> Ahead(b, p, f) != Empty
    decreases CELLS - d
  {
    if Ahead(b, p, d) == Empty || d == CELLS then d else ScanDistance(b, p, d + 1)
  }

  function Scan(b: Board, p: int): (q: int)
    requires |b| == CELLS
    ensures 0 <= q < CELLS
  {
    Wrap(p + ScanDistance(b, p, 1))
  }

  /** The search stops after `a` steps exactly at the first empty cell, or after nine. */
  lemma CursorFound(b: Board, p: int, a: int)
    requires |b| == CELLS && 1 <= a <= CELLS
    requires forall f :: 1 <= f < a ==> Ahead(b, p, f) != Empty
    requires Ahead(b, p, a) == Empty || a == CELLS
    ensures ScanDistance(b, p, 1) == a
  {
  }

  lemma SplitCell(t: int)
    requires 0 <= t < CELLS
    ensures 0 <= t / 3 < 3 && 0 <= t % 3 < 3 && 3 * (t / 3) + t % 3 == t
  {
    assert t / 3 == (if t < 3 then 0 else if t < 6 then 1 else 2);
  }

  lemma RowColumn(y: int, x: int)
    requires 0 <= y < 3 && 0 <= x < 3
    ensures (3 * y + x) % 3 == x && (3 * y + x) / 3 == y
  {
  }

  function MoveCursorStep(v: TttView): TttView
    requires |v.board| == CELLS
  {
    var t := Scan(v.board, Cursor(v));
    v.(cursorX := t % 3, cursorY := t / 3)
  }

  datatype Placement = Placement(game: TttView, ok: bool)

  /** tryPlacePiece(): on the player's turn, an empty cursor cell takes the player's piece. */
  function PlaceStep(v: TttView): Placement
    requires v.Valid()
  {
    if v.state != PlayerTurn then Placement(v, false)
    else if v.board[Cursor(v)] != Empty then Placement(v, false)
    else Placement(AfterMove(v, v.board[Cursor(v) := Player]), true)
  }

  /** update(): on the pet's turn, the pet moves and the result is checked. */
  function UpdateStep(v: TttView, blockRoll: int, choice: int): TttView
    requires v.Valid() && ChoiceOk(v.board, choice)
  {
    if v.state == PetTurn then AfterMove(v, PetMove(v.board, blockRoll, choice)) else v
  }

  function Saved(v: TttView): TttView
  {
    v.(prefs := v.prefs["wins" := v.wins]["draws" := v.draws]["losses" := v.losses])
  }

  function Loaded(v: TttView): TttView
  {
    v.(wins := GetInt(v.prefs, "wins", 0), draws := GetInt(v.prefs, "draws", 0),
       losses := GetInt(v.prefs, "losses", 0))
  }

  /** updateStats(r): count the result, then save the counters. */
  function UpdateStatsStep(v: TttView, r: GameResult): TttView
  {
    var c := match r
      case PlayerWin => v.(wins := v.wins + 1)
      case PetWin => v.(losses := v.losses + 1)
      case Draw => v.(draws := v.draws + 1)
      case NoResult => v;
    Saved(c)
  }

  // ---------------------------------------------------------------------------------------------
  // Properties.

  /** A player line is reported before a pet line, and a draw is a full board without a line. */
  lemma GameOverPriorities(b: Board)
    requires |b| == CELLS
    ensures Won(b, Player) ==> CheckGameOver(b) == PlayerWin
    ensures CheckGameOver(b) == Draw <==> IsBoardFull(b) && !Won(b, Player) && !Won(b, Pet)
  {
  }

  lemma EmptyBoardIsOpen()
    ensures Empties(EMPTY_BOARD) == [0, 1, 2, 3, 4, 5, 6, 7, 8]
    ensures FilledCount(EMPTY_BOARD) == 0 && CheckGameOver(EMPTY_BOARD) == NoResult
  {
    assert !Won(EMPTY_BOARD, Player) by { LinesWellFormed(); }
    assert !Won(EMPTY_BOARD, Pet) by { LinesWellFormed(); }
  }

  /** reset() clears the board, centres the cursor and hands the first turn to one side. */
  lemma ResetStartsGame(v: TttView, starterRoll: int)
    requires v.Valid()
    ensures var r := ResetStep(v, starterRoll);
      && r.Valid() && r.board == EMPTY_BOARD && r.cursorX == 1 && r.cursorY == 1
      && r.movesCount == 0 && r.result == NoResult
      && (r.state == PlayerTurn <==> starterRoll == 0) && (r.state == PetTurn <==> starterRoll != 0)
  {
    EmptyBoardIsOpen();
  }

  /** The pet's piece in the empty cell of the first completable line: for the pet's own line
      it wins that line; for the player's line it blocks it, leaving the player's two pieces
      with no empty cell beside them. */
  lemma CompletionFillsLine(b: Board, owner: Cell)
    requires |b| == CELLS && owner != Empty && CanComplete(b, owner)
    ensures LineOk(LINES[FirstCompletable(b, owner, 0)])
    ensures var line := LINES[FirstCompletable(b, owner, 0)];
      owner == Pet ==> Owns(b[CompletionCell(b, owner) := Pet], line, Pet)
    ensures var line := LINES[FirstCompletable(b, owner, 0)];
      var after := b[CompletionCell(b, owner) := Pet];
      owner == Player ==>
        && CountIn(b, line, Player, 3) == 2
        && CountIn(after, line, Player, 3) == 2
        && CountIn(after, line, Empty, 3) == 0
  {
    LinesWellFormed();
    var line := LINES[FirstCompletable(b, owner, 0)];
    var after := b[CompletionCell(b, owner) := Pet];
    CountInLine(b, line, owner);
    CountInLine(b, line, Empty);
    CountInLine(after, line, Empty);
    CountInLine(after, line, Player);
    LastEmptyIsEmpty(b, line, 3);
    var e := LastEmptyIn(b, line, 3);
    assert line[e] == CompletionCell(b, owner);
  }

  /** With a winning cell available the pet takes it whatever the rolls, and wins. */
  lemma PetTakesWin(b: Board, blockRoll: int, choice: int)
    requires |b| == CELLS && ChoiceOk(b, choice) && CanComplete(b, Pet)
    ensures PetMove(b, blockRoll, choice) == b[CompletionCell(b, Pet) := Pet]
    ensures Won(PetMove(b, blockRoll, choice), Pet)
  {
    CompletionFillsLine(b, Pet);
    LinesWellFormed();
  }

  /** The pet blocks only when it cannot win and its roll is below 85; the block fills the empty
      cell of the first line holding two player pieces. */
  lemma PetBlocksOnlyByRoll(b: Board, blockRoll: int, choice: int)
    requires |b| == CELLS && ChoiceOk(b, choice) && !CanComplete(b, Pet)
    ensures blockRoll < BLOCK_CHANCE && CanComplete(b, Player) ==>
      PetMove(b, blockRoll, choice) == b[CompletionCell(b, Player) := Pet]
    ensures blockRoll >= BLOCK_CHANCE || !CanComplete(b, Player) ==>
      PetMove(b, blockRoll, choice) == RandomStep(b, choice)
  {
  }

  /** On a board with an empty cell, the pet's move turns exactly one empty cell into a pet
      piece and adds one filled cell. */
  lemma PetMoveFillsOneCell(b: Board, blockRoll: int, choice: int)
    requires |b| == CELLS && ChoiceOk(b, choice) && FilledCount(b) < CELLS
    ensures exists i :: 0 <= i < CELLS && b[i] == Empty && PetMove(b, blockRoll, choice) == b[i := Pet]
    ensures FilledCount(PetMove(b, blockRoll, choice)) == FilledCount(b) + 1
  {
    var i;
    if CanComplete(b, Pet) {
      i := CompletionCell(b, Pet);
    } else if blockRoll < BLOCK_CHANCE && CanComplete(b, Player) {
      i := CompletionCell(b, Player);
    } else {
      EmptiesListed(b, CELLS);
      i := Empties(b)[choice];
      assert i in Empties(b);
    }
    assert PetMove(b, blockRoll, choice) == b[i := Pet];
    FillOne(b, i, Pet, CELLS);
  }

  /** The player's piece goes only on an empty cursor cell during the player's turn; otherwise
      nothing changes. */
  lemma PlaceContract(v: TttView)
    requires v.Valid()
    ensures var p := PlaceStep(v);
      && (p.ok <==> v.state == PlayerTurn && v.board[Cursor(v)] == Empty)
      && (!p.ok ==> p.game == v)
      && (p.ok ==>
            && p.game.board == v.board[Cursor(v) := Player]
            && p.game.movesCount == v.movesCount + 1
            && (p.game.state == GameOver <==> CheckGameOver(p.game.board) != NoResult)
            && (p.game.state != GameOver ==> p.game.state == PetTurn))
      && p.game.Valid()
  {
    if PlaceStep(v).ok {
      FillOne(v.board, Cursor(v), Player, CELLS);
    }
  }

  lemma UpdateKeepsValid(v: TttView, blockRoll: int, choice: int)
    requires v.Valid() && ChoiceOk(v.board, choice)
    ensures UpdateStep(v, blockRoll, choice).Valid()
    ensures v.state != PetTurn ==> UpdateStep(v, blockRoll, choice) == v
    ensures v.state == PetTurn ==> UpdateStep(v, blockRoll, choice).state in {PlayerTurn, GameOver}
  {
    if v.state == PetTurn {
      PetMoveFillsOneCell(v.board, blockRoll, choice);
    }
  }

  /** On a full board the search looks at all nine cells and stops where it started. */
  lemma FullBoardFilled(b: Board)
    requires |b| == CELLS && FilledCount(b) == CELLS
    ensures forall i :: 0 <= i < CELLS ==> b[i] != Empty
  {
    EmptiesListed(b, CELLS);
    forall i | 0 <= i < CELLS
      ensures b[i] != Empty
    {
      assert !(i in Empties(b));
    }
  }

  lemma FullBoardScan(b: Board, p: int)
    requires |b| == CELLS && FilledCount(b) == CELLS && 0 <= p < CELLS
    ensures ScanDistance(b, p, 1) == CELLS && Scan(b, p) == p
  {
    var e := ScanDistance(b, p, 1);
    FullBoardFilled(b);
    assert Ahead(b, p, e) != Empty;
  }

  lemma CursorLands(v: TttView, a: int, x: int, y: int)
    requires |v.board| == CELLS && 1 <= a <= CELLS && 0 <= x < 3 && 0 <= y < 3
    requires forall f :: 1 <= f < a ==> Ahead(v.board, Cursor(v), f) != Empty
    requires Ahead(v.board, Cursor(v), a) == Empty || a == CELLS
    requires 3 * y + x == Wrap(Cursor(v) + a)
    ensures MoveCursorStep(v) == v.(cursorX := x, cursorY := y)
  {
    CursorFound(v.board, Cursor(v), a);
    RowColumn(y, x);
  }

  /** The cursor lands on the first empty cell after it in cyclic row-major order, or, when no
      cell is empty, back where it started after nine steps. */
  lemma CursorMoves(v: TttView)
    requires |v.board| == CELLS && 0 <= Cursor(v) < CELLS
    ensures Cursor(MoveCursorStep(v)) == Wrap(Cursor(v) + ScanDistance(v.board, Cursor(v), 1))
    ensures FilledCount(v.board) == CELLS ==> Cursor(MoveCursorStep(v)) == Cursor(v)
  {
    var t := Scan(v.board, Cursor(v));
    if FilledCount(v.board) == CELLS {
      FullBoardScan(v.board, Cursor(v));
    }
    SplitCell(t);
  }

  /** Moving the cursor changes nothing but the cursor, which stays on the board. */
  lemma MoveCursorKeepsValid(v: TttView)
    requires v.Valid()
    ensures MoveCursorStep(v) == v.(cursorX := MoveCursorStep(v).cursorX, cursorY := MoveCursorStep(v).cursorY)
    ensures MoveCursorStep(v).Valid()
  {
    SplitCell(Scan(v.board, Cursor(v)));
  }

  /** updateStats counts exactly one of the three outcomes, and nothing for no result. */
  lemma StatsCountOneOutcome(v: TttView, r: GameResult)
    ensures var u := UpdateStatsStep(v, r);
      && u.wins + u.draws + u.losses == v.wins + v.draws + v.losses + (if r == NoResult then 0 else 1)
      && u.wins >= v.wins && u.draws >= v.draws && u.losses >= v.losses
      && (r == PlayerWin ==> u.wins == v.wins + 1)
      && (r == PetWin ==> u.losses == v.losses + 1)
      && (r == Draw ==> u.draws == v.draws + 1)
    ensures v.Valid() ==> UpdateStatsStep(v, r).Valid()
  {
  }

  /** Loading after saving restores the three counters. */
  lemma LoadAfterSave(v: TttView)
    ensures Loaded(Saved(v)) == Saved(v)
  {
  }

  // ---------------------------------------------------------------------------------------------
  // The game as the object the source mutates.

  class TicTacToeGame {
    const board: array<Cell>
    var cursorX: int
    var cursorY: int
    var state: State
    var result: GameResult
    var playerFirst: bool
    var movesCount: int
    var wins: int
    var draws: int
    var losses: int
    var prefs: map<string, int>

    predicate Dims()
    {
      board.Length == CELLS
    }

    function Cells(): (b: Board)
      requires Dims()
      reads board
      ensures |b| == CELLS
    {
      board[..]
    }

    function Snap(): TttView
      requires Dims()
      reads this, board
    {
      TttView(Cells(), cursorX, cursorY, state, result, playerFirst, movesCount, wins, draws, losses, prefs)
    }

    ghost predicate Valid()
      reads this, board
    {
      Dims() && Snap().Valid()
    }

    constructor(starterRoll: int)
      ensures Valid() && fresh(board)
      ensures Snap() == ResetStep(TttView(EMPTY_BOARD, 0, 0, Idle, NoResult, false, 0, 0, 0, 0, map[]), starterRoll)
    {
      wins := 0;
      draws := 0;
      losses := 0;
      prefs := map[];
      board := new Cell[CELLS](_ => Empty);
      new;
      EmptyBoardIsOpen();
      Reset(starterRoll);
      assert Cells() == EMPTY_BOARD;
    }

    /** initialize(): read the counters from `store`, then reset. */
    method Initialize(store: map<string, int>, starterRoll: int)
      requires Valid() && StatsStored(store)
      modifies this, board
      ensures Valid() && Snap() == ResetStep(Loaded(old(Snap()).(prefs := store)), starterRoll)
    {
      prefs := store;
      LoadStats();
      Reset(starterRoll);
    }

    method LoadStats()
      requires Valid()
      modifies this
      ensures Valid() && Snap() == Loaded(old(Snap()))
    {
      wins := GetInt(prefs, "wins", 0);
      draws := GetInt(prefs, "draws", 0);
      losses := GetInt(prefs, "losses", 0);
    }

    method SaveStats()
      requires Valid()
      modifies this
      ensures Valid() && Snap() == Saved(old(Snap()))
    {
      prefs := prefs["wins" := wins];
      prefs := prefs["draws" := draws];
      prefs := prefs["losses" := losses];
    }

    method UpdateStats(r: GameResult)
      requires Valid()
      modifies this
      ensures Valid() && Snap() == UpdateStatsStep(old(Snap()), r)
    {
      if r == PlayerWin {
        wins := wins + 1;
      } else if r == PetWin {
        losses := losses + 1;
      } else if r == Draw {
        draws := draws + 1;
      }
      SaveStats();
    }

    method Reset(starterRoll: int)
      requires Dims() && wins >= 0 && draws >= 0 && losses >= 0 && StatsStored(prefs)
      modifies this, board
      ensures Valid() && Snap() == ResetStep(old(Snap()), starterRoll)
    {
      ClearBoard();
      EmptyBoardIsOpen();
      cursorX := 1;
      cursorY := 1;
      playerFirst := starterRoll == 0;
      movesCount := 0;
      result := NoResult;
      if playerFirst {
        state := PlayerTurn;
      } else {
        state := PetTurn;
      }
    }

    /** Every cell of the board back to empty, row by row. */
    method ClearBoard()
      requires Dims()
      modifies board
      ensures Cells() == EMPTY_BOARD
    {
      for y := 0 to 3
        invariant forall i :: 0 <= i < 3 * y ==> board[i] == Empty
      {
        for x := 0 to 3
          invariant forall i :: 0 <= i < 3 * y + x ==> board[i] == Empty
        {
          board[3 * y + x] := Empty;
        }
      }
    }

    method Update(blockRoll: int, choice: int)
      requires Valid() && 0 <= blockRoll < 100 && ChoiceOk(Cells(), choice)
      modifies this, board
      ensures Valid() && Snap() == UpdateStep(old(Snap()), blockRoll, choice)
    {
      UpdateKeepsValid(Snap(), blockRoll, choice);
      if state == PetTurn {
        TamagotchiMove(blockRoll, choice);
        result := CheckGameOver(Cells());
        if result != NoResult {
          state := GameOver;
        } else {
          state := PlayerTurn;
        }
      }
    }

    /** moveCursor(): step the cursor in row-major order, wrapping from (2, 2) to (0, 0), until it
        is on an empty cell or has taken nine steps. */
    method MoveCursor()
      requires Valid()
      modifies this
      ensures Valid() && Snap() == MoveCursorStep(old(Snap()))
    {
      ghost var v := Snap();
      MoveCursorKeepsValid(v);
      var x, y, attempts := Search(cursorX, cursorY, Cursor(v));
      CursorLands(v, attempts, x, y);
      PlaceCursor(x, y);
    }

    /** The loop of moveCursor(): the cell it stops on and the number of steps taken. */
    method Search(x0: int, y0: int, ghost p: int) returns (x: int, y: int, attempts: int)
      requires Dims() && 0 <= x0 < 3 && 0 <= y0 < 3 && p == 3 * y0 + x0
      ensures 1 <= attempts <= CELLS && 0 <= x < 3 && 0 <= y < 3
      ensures 3 * y + x == Wrap(p + attempts)
      ensures forall f :: 1 <= f < attempts ==> Ahead(board[..], p, f) != Empty
      ensures Ahead(board[..], p, attempts) == Empty || attempts == CELLS
    {
      x, y := Advance(x0, y0);
      attempts := 1;
      while board[3 * y + x] != Empty && attempts < 9
        invariant 1 <= attempts <= CELLS
        invariant 0 <= x < 3 && 0 <= y < 3
        invariant 3 * y + x == Wrap(p + attempts)
        invariant forall f :: 1 <= f < attempts ==> Ahead(board[..], p, f) != Empty
        decreases CELLS - attempts
      {
        assert Ahead(board[..], p, attempts) != Empty;
        x, y := Advance(x, y);
        attempts := attempts + 1;
      }
    }

    /** One step of the cursor in row-major order, wrapping from (2, 2) to (0, 0). */
    static method Advance(x: int, y: int) returns (x': int, y': int)
      requires 0 <= x < 3 && 0 <= y < 3
      ensures 0 <= x' < 3 && 0 <= y' < 3
      ensures 3 * y' + x' == Wrap(3 * y + x + 1)
    {
      x', y' := x + 1, y;
      if x' > 2 {
        x' := 0;
        y' := y' + 1;
        if y' > 2 {
          y' := 0;
        }
      }
    }

    method PlaceCursor(x: int, y: int)
      requires Dims()
      modifies this
      ensures Snap() == old(Snap()).(cursorX := x, cursorY := y)
    {
      cursorX, cursorY := x, y;
    }

    method TryPlacePiece() returns (ok: bool)
      requires Valid()
      modifies this, board
      ensures Valid() && Placement(Snap(), ok) == PlaceStep(old(Snap()))
    {
      ghost var v := Snap();
      PlaceContract(v);
      if state != PlayerTurn {
        return false;
      }
      if board[3 * cursorY + cursorX] != Empty {
        return false;
      }
      board[3 * cursorY + cursorX] := Player;
      movesCount := movesCount + 1;
      assert Cells() == v.board[Cursor(v) := Player];
      result := CheckGameOver(Cells());
      if result != NoResult {
        state := GameOver;
      } else {
        state := PetTurn;
      }
      return true;
    }

    method TamagotchiMove(blockRoll: int, choice: int)
      requires Dims() && 0 <= blockRoll < 100 && ChoiceOk(Cells(), choice)
      modifies this, board
      ensures Cells() == PetMove(old(Cells()), blockRoll, choice)
      ensures Snap() == old(Snap()).(board := Cells(), movesCount := old(movesCount) + 1)
    {
      var won := TryToWin();
      if won {
        movesCount := movesCount + 1;
        return;
      }
      if blockRoll < BLOCK_CHANCE {
        var blocked := TryToBlock();
        if blocked {
          movesCount := movesCount + 1;
          return;
        }
      }
      RandomMove(choice);
      movesCount := movesCount + 1;
    }

    method TryToWin() returns (placed: bool)
      requires Dims()
      modifies board
      ensures placed <==> CanComplete(old(Cells()), Pet)
      ensures Cells() == if placed then old(Cells())[CompletionCell(old(Cells()), Pet) := Pet] else old(Cells())
    {
      placed := TryComplete(Pet);
    }

    method TryToBlock() returns (placed: bool)
      requires Dims()
      modifies board
      ensures placed <==> CanComplete(old(Cells()), Player)
      ensures Cells() == if placed then old(Cells())[CompletionCell(old(Cells()), Player) := Pet] else old(Cells())
    {
      placed := TryComplete(Player);
    }

    /** The loops of tryToWin() and tryToBlock(): find the first line with two `owner` pieces and
        one empty cell, counted cell by cell, and put a pet piece in the empty cell. */
    method TryComplete(owner: Cell) returns (placed: bool)
      requires Dims() && owner != Empty
      modifies board
      ensures placed <==> CanComplete(old(Cells()), owner)
      ensures Cells() == if placed then old(Cells())[CompletionCell(old(Cells()), owner) := Pet] else old(Cells())
    {
      LinesWellFormed();
      ghost var b := Cells();
      var k := 0;
      while k < 8
        invariant 0 <= k <= 8
        invariant Cells() == b
        invariant FirstCompletable(b, owner, 0) == FirstCompletable(b, owner, k)
      {
        var line := LINES[k];
        var ownerCount, emptyCount, emptyAt := 0, 0, -1;
        for j := 0 to 3
          invariant ownerCount == CountIn(b, line, owner, j)
          invariant emptyCount == CountIn(b, line, Empty, j)
          invariant emptyAt == LastEmptyIn(b, line, j)
        {
          var c := board[line[j]];
          assert c == b[line[j]];
          if c == owner {
            ownerCount := ownerCount + 1;
          } else if c == Empty {
            emptyCount := emptyCount + 1;
            emptyAt := j;
          }
        }
        if ownerCount == 2 && emptyCount == 1 {
          LastEmptyIsEmpty(b, line, 3);
          var i := line[emptyAt];
          board[i] := Pet;
          assert Cells() == b[i := Pet];
          return true;
        }
        k := k + 1;
      }
      return false;
    }

    /** randomMove(): list the empty cells in row-major order and take the `choice`-th. */
    method RandomMove(choice: int)
      requires Dims() && ChoiceOk(Cells(), choice)
      modifies board
      ensures Cells() == RandomStep(old(Cells()), choice)
    {
      ghost var b := Cells();
      var empties: seq<int> := [];
      for y := 0 to 3
        invariant empties == EmptiesUpTo(b, 3 * y)
      {
        for x := 0 to 3
          invariant empties == EmptiesUpTo(b, 3 * y + x)
        {
          if board[3 * y + x] == Empty {
            empties := empties + [3 * y + x];
          }
        }
      }
      if |empties| > 0 {
        var i := empties[choice];
        EmptiesListed(b, CELLS);
        assert i in Empties(b);
        board[i] := Pet;
        assert Cells() == b[i := Pet];
      }
    }
  }
}
