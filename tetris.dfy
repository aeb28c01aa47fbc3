/** The game logic of the terminal Tetris: the falling piece, the playfield, the seven-bag
    randomiser, the level and score rules, and the game object that ties them together. */
module Tetris {
  import opened Common
  import opened Shapes

  const BoardWidth := 10
  const BoardHeight := 20
  const VisibleRows := 20

  /** Where every new piece appears: column 3, two rows above the top of the board. */
  const SpawnX := 3
  const SpawnY := -2

  /** The horizontal offsets tried, in order, when a rotation does not fit in place. */
  const Kicks: seq<int> := [0, -1, 1, -2, 2]

  /** `Tetromino`. */
  datatype Tetromino = Tetromino(name: PieceName, rotations: seq<RotationState>, rotationIndex: int, x: int, y: int)

  /** What every cycle of `TETROMINOES` satisfies: four states of four cells each, all in
      the 4 by 4 square. */
  predicate ValidCycle(rotations: seq<RotationState>) {
    |rotations| == 4 &&
    forall k :: 0 <= k < 4 ==> |rotations[k].coordinates| == 4 && InSquare(rotations[k])
  }

  predicate WellFormed(p: Tetromino) {
    ValidCycle(p.rotations) && 0 <= p.rotationIndex < 4
  }

  /** `current_state`. */
  function CurrentState(p: Tetromino): (s: RotationState)
    requires WellFormed(p)
    ensures |s.coordinates| == 4 && InSquare(s)
  {
    p.rotations[p.rotationIndex]
  }

  /** `rotated`: the index moves by `delta` modulo 4. Python's `%` by the positive 4 is
      never negative, as Dafny's is. */
  function Rotated(p: Tetromino, delta: int): (r: Tetromino)
    ensures 0 <= r.rotationIndex < 4 && (ValidCycle(p.rotations) ==> WellFormed(r))
    ensures (r.rotationIndex - p.rotationIndex - delta) % 4 == 0
    ensures r.(rotationIndex := p.rotationIndex) == p
  {
    p.(rotationIndex := (p.rotationIndex + delta) % 4)
  }

  /** `moved`: a copy at the offset position, with the same shape and rotation. */
  function Moved(p: Tetromino, dx: int, dy: int): (r: Tetromino)
    ensures r.x - p.x == dx && r.y - p.y == dy && r.(x := p.x, y := p.y) == p
    ensures WellFormed(p) ==> WellFormed(r)
  {
    p.(x := p.x + dx, y := p.y + dy)
  }

  /** `cells`: the four offsets of the current rotation, moved to the piece's position; each
      lies in the 4 by 4 square whose top left corner is that position. */
  function PieceCells(p: Tetromino): (cs: seq<Coordinate>)
    requires WellFormed(p)
    ensures |cs| == 4
    ensures forall i :: 0 <= i < |cs| ==> p.x <= cs[i].0 < p.x + 4 && p.y <= cs[i].1 < p.y + 4
  {
    Translate(CurrentState(p).coordinates, p.x, p.y)
  }

  /** Turning by `delta` and back by `-delta` gives the same piece. */
  lemma RotatedInverse(p: Tetromino, delta: int)
    requires WellFormed(p)
    ensures Rotated(Rotated(p, delta), -delta) == p
  {
    var q := (p.rotationIndex + delta) / 4;
    assert (p.rotationIndex + delta) % 4 == p.rotationIndex + delta - 4 * q;
    assert (p.rotationIndex - 4 * q) % 4 == p.rotationIndex;
  }

  /** Four quarter turns in the same direction give the same piece. */
  lemma FourQuarterTurns(p: Tetromino)
    requires WellFormed(p)
    ensures Rotated(Rotated(Rotated(Rotated(p, 1), 1), 1), 1) == p
  {
  }

  /** Moving a piece moves each of its cells by the same amount, in the same order. */
  lemma MovedCells(p: Tetromino, dx: int, dy: int)
    requires WellFormed(p)
    ensures PieceCells(Moved(p, dx, dy)) == Translate(PieceCells(p), dx, dy)
  {
    var coords := CurrentState(p).coordinates;
    assert CurrentState(Moved(p, dx, dy)) == CurrentState(p);
    assert PieceCells(Moved(p, dx, dy)) == Translate(coords, p.x + dx, p.y + dy);
    assert PieceCells(p) == Translate(coords, p.x, p.y);
    TranslateCompose(coords, p.x, p.y, dx, dy);
  }

  /** A cell of the playfield: empty, or the name of the piece locked there. */
  type Row = seq<Option<PieceName>>
  type Grid = seq<Row>

  function EmptyRow(width: nat): (r: Row)
    ensures |r| == width && forall i :: 0 <= i < width ==> r[i] == None
  {
    seq(width, _ => None)
  }

  function EmptyGrid(width: nat, height: nat): (g: Grid)
    ensures |g| == height && forall y :: 0 <= y < height ==> g[y] == EmptyRow(width)
  {
    seq(height, _ => EmptyRow(width))
  }

  lemma EmptyGridSucc(width: nat, n: nat)
    ensures [EmptyRow(width)] + EmptyGrid(width, n) == EmptyGrid(width, n + 1)
  {
    assert forall y :: 0 <= y < n + 1 ==> ([EmptyRow(width)] + EmptyGrid(width, n))[y] == EmptyRow(width);
  }

  predicate Shaped(g: Grid, width: nat, height: nat) {
    |g| == height && forall y :: 0 <= y < |g| ==> |g[y]| == width
  }

  /** What the comprehension in `clear_complete_lines` keeps: a row with an empty cell. */
  predicate HasGap(row: Row) {
    exists i :: 0 <= i < |row| && row[i] == None
  }

  /** The rows of `g` that have a gap, in their order. */
  function Incomplete(g: Grid): (r: Grid)
    ensures forall row :: row in r <==> row in g && HasGap(row)
    ensures Subsequence(r, g)
  {
    if g == [] then []
    else
      var rest := Incomplete(g[1..]);
      assert forall row :: row in g <==> row == g[0] || row in g[1..];
      if HasGap(g[0]) then
        assert ([g[0]] + rest)[1..] == rest;
        [g[0]] + rest
      else rest
  }

  /** The number of complete rows of `g`. */
  function FullRows(g: Grid): (n: nat)
    ensures n + |Incomplete(g)| == |g|
  {
    if g == [] then 0 else (if HasGap(g[0]) then 0 else 1) + FullRows(g[1..])
  }

  lemma {:induction false} FullRowsAppend(a: Grid, b: Grid)
    ensures FullRows(a + b) == FullRows(a) + FullRows(b)
  {
    if a != [] {
      assert (a + b)[0] == a[0] && (a + b)[1..] == a[1..] + b;
      FullRowsAppend(a[1..], b);
    } else {
      assert a + b == b;
    }
  }

  lemma {:induction false} FullRowsOfEmpty(width: nat, n: nat)
    requires width > 0
    ensures FullRows(EmptyGrid(width, n)) == 0
  {
    if n > 0 {
      assert EmptyGrid(width, n)[0][0] == None;
      assert EmptyGrid(width, n)[1..] == EmptyGrid(width, n - 1);
      FullRowsOfEmpty(width, n - 1);
    }
  }

  lemma {:induction false} FullRowsOfIncomplete(g: Grid)
    ensures FullRows(Incomplete(g)) == 0
  {
    if g != [] {
      FullRowsOfIncomplete(g[1..]);
      if HasGap(g[0]) {
        assert ([g[0]] + Incomplete(g[1..]))[1..] == Incomplete(g[1..]);
      }
    }
  }

  /** After the full rows are cleared and empty rows put on top, no row is complete. */
  lemma NoFullRowAfterClear(g: Grid, width: nat, n: nat)
    requires width > 0
    ensures FullRows(EmptyGrid(width, n) + Incomplete(g)) == 0
  {
    FullRowsAppend(EmptyGrid(width, n), Incomplete(g));
    FullRowsOfEmpty(width, n);
    FullRowsOfIncomplete(g);
  }

  /** Clearing keeps the shape of the grid. */
  lemma ClearedShaped(g: Grid, width: nat, height: nat)
    requires Shaped(g, width, height)
    ensures Shaped(EmptyGrid(width, FullRows(g)) + Incomplete(g), width, height)
  {
    var top := FullRows(g);
    var r := EmptyGrid(width, top) + Incomplete(g);
    forall y | 0 <= y < |r| ensures |r[y]| == width {
      if y >= top {
        assert r[y] == Incomplete(g)[y - top] && Incomplete(g)[y - top] in Incomplete(g);
      }
    }
  }

  /** One step of `lock_piece`: the name goes into cell `c` when the cell is on the grid. */
  function Put(g: Grid, c: Coordinate, name: PieceName): Grid {
    if 0 <= c.1 < |g| && 0 <= c.0 < |g[c.1]| then g[c.1 := g[c.1][c.0 := Some(name)]] else g
  }

  /** The cells written one after the other. */
  function Write(g: Grid, cs: seq<Coordinate>, name: PieceName): (r: Grid)
    ensures |r| == |g| && forall y :: 0 <= y < |g| ==> |r[y]| == |g[y]|
  {
    if cs == [] then g else Put(Write(g, cs[..|cs| - 1], name), cs[|cs| - 1], name)
  }

  /** The grid once `p` is locked into it. */
  function Locked(g: Grid, p: Tetromino): Grid
    requires WellFormed(p)
  {
    Write(g, PieceCells(p), p.name)
  }

  /** Writing cells puts the name exactly in the listed cells and leaves every other cell. */
  lemma {:induction false} WriteContents(g: Grid, cs: seq<Coordinate>, name: PieceName)
    ensures forall y, x :: 0 <= y < |g| && 0 <= x < |g[y]| ==>
              Write(g, cs, name)[y][x] == if (x, y) in cs then Some(name) else g[y][x]
  {
    if cs != [] {
      var init := cs[..|cs| - 1];
      WriteContents(g, init, name);
      assert forall c :: c in cs <==> c in init || c == cs[|cs| - 1] by {
        assert cs == init + [cs[|cs| - 1]];
      }
    }
  }

  /** Cells that are all above the board write nothing. */
  lemma {:induction false} WriteAbove(g: Grid, cs: seq<Coordinate>, name: PieceName)
    requires forall c :: c in cs ==> c.1 < 0
    ensures Write(g, cs, name) == g
  {
    if cs != [] {
      assert forall c :: c in cs[..|cs| - 1] ==> c in cs;
      WriteAbove(g, cs[..|cs| - 1], name);
    }
  }

  /** `Board`. */
  class Board {
    const width: nat
    const height: nat
    var grid: Grid

    ghost predicate Valid()
      reads this`grid
    {
      Shaped(grid, width, height)
    }

    /** `__init__`: an empty grid of the given size. */
    constructor (width: nat, height: nat)
      ensures this.width == width && this.height == height
      ensures grid == EmptyGrid(width, height) && Valid()
    {
      this.width := width;
      this.height := height;
      grid := EmptyGrid(width, height);
    }

    /** `inside`: between the side walls and above the floor; there is no ceiling. */
    predicate Inside(x: int, y: int) {
      0 <= x < width && y < height
    }

    /** `is_empty` as written: every cell above the board counts as empty, even one beyond
        a side wall. */
    predicate IsEmptyAsWritten(x: int, y: int)
      requires Valid()
      reads this`grid
    {
      y < 0 || (Inside(x, y) && grid[y][x] == None)
    }

    /** `is_empty` as intended: a cell between the walls and above the floor, empty or above
        the top of the board. */
    predicate IsEmpty(x: int, y: int)
      requires Valid()
      reads this`grid
      ensures IsEmpty(x, y) ==> IsEmptyAsWritten(x, y)
      ensures 0 <= x < width ==> (IsEmpty(x, y) <==> IsEmptyAsWritten(x, y))
    {
      Inside(x, y) && (y < 0 || grid[y][x] == None)
    }

    /** `can_place` over the cells as written. */
    predicate CanPlaceAsWritten(p: Tetromino)
      requires Valid() && WellFormed(p)
      reads this`grid
    {
      var cs := PieceCells(p);
      forall i :: 0 <= i < |cs| ==> IsEmptyAsWritten(cs[i].0, cs[i].1)
    }

    /** `can_place`. */
    predicate CanPlace(p: Tetromino)
      requires Valid() && WellFormed(p)
      reads this`grid
      ensures CanPlace(p) ==> CanPlaceAsWritten(p)
    {
      var cs := PieceCells(p);
      forall i :: 0 <= i < |cs| ==> IsEmpty(cs[i].0, cs[i].1)
    }

    /** What `lock_piece` needs to index the grid: every cell on a row of the grid is between
        the walls (Python would wrap a negative column and fail on one past the right wall). */
    predicate Writable(p: Tetromino)
      requires WellFormed(p)
    {
      var cs := PieceCells(p);
      forall i :: 0 <= i < |cs| && 0 <= cs[i].1 < height ==> 0 <= cs[i].0 < width
    }

    /** `p` fits at each of the `d` rows below it. */
    predicate ClearPath(p: Tetromino, d: int)
      requires Valid() && WellFormed(p)
      reads this`grid
    {
      forall k :: 0 < k <= d ==> CanPlace(Moved(p, 0, k))
    }

    /** `p` can drop by `d` rows and no further. */
    predicate Landing(p: Tetromino, d: int)
      requires Valid() && WellFormed(p)
      reads this`grid
    {
      d >= 0 && ClearPath(p, d) && !CanPlace(Moved(p, 0, d + 1))
    }

    lemma ClearPathStep(p: Tetromino, d: int)
      requires Valid() && WellFormed(p) && ClearPath(p, d) && CanPlace(Moved(p, 0, d + 1))
      ensures ClearPath(p, d + 1)
    {
    }

    /** A piece that fits lies between the walls and above the floor, so it can be locked
        and stands above the floor row. */
    lemma PlaceableWithinWalls(p: Tetromino)
      requires Valid() && WellFormed(p) && CanPlace(p)
      ensures var cs := PieceCells(p); forall i :: 0 <= i < |cs| ==> 0 <= cs[i].0 < width && cs[i].1 < height
      ensures Writable(p) && p.y < height
    {
      var cs := PieceCells(p);
      assert IsEmpty(cs[0].0, cs[0].1);
    }

    /** With the two top rows empty, every newly spawned piece fits. */
    lemma SpawnFits(name: PieceName)
      requires Valid() && width >= SpawnX + 4 && height >= 2
      requires forall y, x :: 0 <= y < 2 && 0 <= x < width ==> grid[y][x] == None
      ensures CanPlace(Spawned(name)) && Writable(Spawned(name))
    {
    }

    /** The piece a single drop of `p` leaves is unique: a hard drop and the ghost piece land
        in the same place. */
    lemma LandingUnique(p: Tetromino, d: int, e: int)
      requires Valid() && WellFormed(p) && Landing(p, d) && Landing(p, e)
      ensures d == e
    {
    }

    /** `lock_piece`: the piece's name goes into each of its cells that is on the grid. */
    method LockPiece(p: Tetromino)
      requires Valid() && WellFormed(p) && Writable(p)
      modifies this`grid
      ensures Valid()
      ensures grid == Locked(old(grid), p)
    {
      var cells := PieceCells(p);
      for i := 0 to |cells|
        invariant grid == Write(old(grid), cells[..i], p.name)
        invariant Valid()
      {
        var c := cells[i];
        assert cells[..i + 1][..i] == cells[..i];
        if 0 <= c.1 < height {
          grid := grid[c.1 := grid[c.1][c.0 := Some(p.name)]];
        }
      }
      assert cells[..|cells|] == cells;
    }

    /** `clear_complete_lines`: the rows with a gap keep their order at the bottom, as many
        empty rows as there were full ones go on top, and that number is returned. */
    method ClearCompleteLines() returns (cleared: int)
      requires Valid()
      modifies this`grid
      ensures Valid()
      ensures cleared == FullRows(old(grid)) && 0 <= cleared <= height
      ensures grid == EmptyGrid(width, cleared) + Incomplete(old(grid))
    {
      var remaining := Incomplete(grid);
      cleared := height - |remaining|;
      ClearedShaped(grid, width, height);
      ghost var kept := remaining;
      ghost var n := 0;
      assert EmptyGrid(width, 0) + kept == kept;
      while |remaining| < height
        invariant n == |remaining| - |kept| && |remaining| <= height
        invariant remaining == EmptyGrid(width, n) + kept
      {
        EmptyGridSucc(width, n);
        remaining := [EmptyRow(width)] + remaining;
        n := n + 1;
      }
      grid := remaining;
    }

    /** `rows`: the last `VisibleRows` rows, or all of them on a shorter board. */
    function VisibleRowsOf(): (r: Grid)
      reads this`grid
      ensures |r| == Min(VisibleRows, |grid|)
      ensures forall i :: 0 <= i < |r| ==> r[i] == grid[|grid| - |r| + i]
    {
      if |grid| <= VisibleRows then grid else grid[|grid| - VisibleRows..]
    }

    /** As written, a piece above the board can leave the walls: the flat I piece (its
        first rotation, by `FlatI`), just spawned and moved four columns left, sticks out
        past the left wall, fits nowhere lower, and locking it writes nothing, so it
        vanishes. */
    lemma WallEscapeAsWritten(p: Tetromino)
      requires Valid() && width == BoardWidth && height == BoardHeight
      requires grid == EmptyGrid(BoardWidth, BoardHeight)
      requires WellFormed(p) && CurrentState(p).coordinates == [(0, 1), (1, 1), (2, 1), (3, 1)]
      requires p.x == SpawnX - 4 && p.y == SpawnY
      ensures CanPlaceAsWritten(p) && !CanPlaceAsWritten(Moved(p, 0, 1))
      ensures PieceCells(p)[0] == (-1, -1) && Locked(grid, p) == grid
    {
      assert PieceCells(p) == [(-1, -1), (0, -1), (1, -1), (2, -1)];
      assert PieceCells(Moved(p, 0, 1))[0] == (-1, 0);
      WriteAbove(grid, PieceCells(p), p.name);
    }

    /** As intended, no piece ever reaches past a wall: a piece with any cell left of the
        left wall or right of the right wall does not fit, above the board or not (the
        converse direction of `PlaceableWithinWalls`). */
    lemma WallEscapeCorrected(p: Tetromino, i: int)
      requires Valid() && WellFormed(p) && 0 <= i < 4
      requires PieceCells(p)[i].0 < 0 || PieceCells(p)[i].0 >= width
      ensures !CanPlace(p)
    {
      if CanPlace(p) {
        PlaceableWithinWalls(p);
      }
    }
  }

  /** The I piece lies flat in its first rotation, on the second row of its square. */
  lemma FlatI()
    ensures Rotations(I)[0].coordinates == [(0, 1), (1, 1), (2, 1), (3, 1)]
  {
    assert Turned(BaseShape(I), 0) == BaseShape(I);
  }

  /** The piece `next_piece` hands out for a name: its cycle from `TETROMINOES`, first
      rotation, at the spawn point. */
  function Spawned(name: PieceName): (p: Tetromino)
    ensures WellFormed(p) && p.rotationIndex == 0 && p.x == SpawnX && p.y == SpawnY
    ensures p.name == name && p.rotations == Rotations(name)
  {
    RotationsValid(name);
    Tetromino(name, Rotations(name), 0, SpawnX, SpawnY)
  }

  /** Every cycle of `TETROMINOES` is a valid cycle. */
  lemma RotationsValid(name: PieceName)
    ensures ValidCycle(Rotations(name))
  {
    var cycle := Rotations(name);
    forall k | 0 <= k < 4 ensures |cycle[k].coordinates| == 4 && InSquare(cycle[k]) {
      RotationStateCells(name, k);
    }
  }

  /** No name occurs twice. */
  predicate Distinct(s: seq<PieceName>) {
    forall i, j :: 0 <= i < j < |s| ==> s[i] != s[j]
  }

  /** A fresh bag: seven different names, that is every name once in some order. The
      order comes from `random.shuffle` and is a parameter here. */
  predicate IsShuffle(s: seq<PieceName>) {
    |s| == |Names| && Distinct(s)
  }

  /** The bag `next_piece` draws from: refilled when empty. */
  function Refilled(bag: seq<PieceName>, shuffle: seq<PieceName>): (r: seq<PieceName>)
    ensures IsShuffle(shuffle) ==> |r| > 0
    ensures r == bag || bag == []
  {
    if bag == [] then shuffle else bag
  }

  /** `PieceBag`: the seven-bag randomiser. */
  class PieceBag {
    var bag: seq<PieceName>

    /** The bag never holds a name twice. */
    ghost predicate Valid()
      reads this`bag
    {
      Distinct(bag)
    }

    constructor ()
      ensures bag == [] && Valid()
    {
      bag := [];
    }

    /** `next_piece`: refill from `shuffle` when empty, then hand out the last name at the
        spawn point. */
    method NextPiece(shuffle: seq<PieceName>) returns (p: Tetromino)
      requires Valid() && IsShuffle(shuffle)
      modifies this`bag
      ensures var source := Refilled(old(bag), shuffle);
              |source| > 0 && p == Spawned(source[|source| - 1]) && bag == source[..|source| - 1]
      ensures Valid()
    {
      if bag == [] {
        bag := shuffle;
      }
      var name := bag[|bag| - 1];
      bag := bag[..|bag| - 1];
      p := Spawned(name);
    }
  }

  /** `LEVEL_SPEED.get(level, 0.1)`: seconds between two gravity steps. */
  function DropInterval(level: int): (r: real)
    ensures 0.1 <= r <= 0.8
    ensures 1 <= level <= 10 ==> r == [0.8, 0.72, 0.63, 0.55, 0.47, 0.38, 0.3, 0.22, 0.13, 0.1][level - 1]
    ensures level < 1 || level > 10 ==> r == 0.1
  {
    match level
    case 1 => 0.8
    case 2 => 0.72
    case 3 => 0.63
    case 4 => 0.55
    case 5 => 0.47
    case 6 => 0.38
    case 7 => 0.3
    case 8 => 0.22
    case 9 => 0.13
    case _ => 0.1
  }

  /** A higher level never falls more slowly. */
  lemma DropIntervalMonotone(level: int, higher: int)
    requires 1 <= level <= higher
    ensures DropInterval(higher) <= DropInterval(level)
  {
  }

  /** `calculate_level`: one level per ten lines, from 1, capped at 10. Python's `//` by
      the positive 10 rounds down, as Dafny's `/` does. */
  function CalculateLevel(lines: int): (level: int)
    ensures level <= 10
    ensures lines >= 0 ==> level >= 1
    ensures level == 10 || (level - 1) * 10 <= lines < level * 10
    ensures lines >= 90 ==> level == 10
  {
    Min(10, lines / 10 + 1)
  }

  /** Clearing more lines never lowers the level. */
  lemma LevelMonotone(lines: int, more: int)
    requires lines <= more
    ensures CalculateLevel(lines) <= CalculateLevel(more)
  {
  }

  /** The points table of `score_for_lines`, at level 1. */
  function LineScore(lines: int): (points: int)
    ensures 0 <= points <= 1200
    ensures points > 0 <==> 1 <= lines <= 4
  {
    match lines
    case 0 => 0
    case 1 => 40
    case 2 => 100
    case 3 => 300
    case 4 => 1200
    case _ => 0
  }

  /** `score_for_lines`: the table entry times the level; no entry scores nothing. */
  function ScoreForLines(lines: int, level: int): (s: int)
    ensures 1 <= lines <= 4 ==> s == [40, 100, 300, 1200][lines - 1] * level
    ensures !(1 <= lines <= 4) ==> s == 0
    ensures level >= 0 ==> s >= 0
  {
    LineScore(lines) * level
  }

  /** Clearing lines together pays more than clearing them one pass at a time. */
  lemma ScoreRewardsCombos(level: int)
    requires level >= 1
    ensures ScoreForLines(1, level) > 0
    ensures ScoreForLines(2, level) > 2 * ScoreForLines(1, level)
    ensures ScoreForLines(3, level) > ScoreForLines(2, level) + ScoreForLines(1, level)
    ensures ScoreForLines(4, level) > 2 * ScoreForLines(2, level)
    ensures ScoreForLines(4, level) > ScoreForLines(3, level) + ScoreForLines(1, level)
  {
  }

  /** `GameState`; `board` is the game's own board, held by `TetrisGame`. */
  datatype GameState = GameState(
    current: Tetromino,
    nextPiece: Tetromino,
    score: int,
    level: int,
    linesCleared: int,
    gameOver: bool)

  /** `TetrisGame`. */
  class TetrisGame {
    const board: Board
    const bag: PieceBag
    var state: GameState

    /** Everything the game keeps, except that the current piece fits. */
    ghost predicate Consistent()
      reads this, board`grid, bag`bag
    {
      board.Valid() && board.width == BoardWidth && board.height == BoardHeight && bag.Valid() &&
      WellFormed(state.current) && WellFormed(state.nextPiece) && board.Writable(state.current) &&
      state.linesCleared >= 0 && state.level == CalculateLevel(state.linesCleared) &&
      state.score >= 0
    }

    /** Until the game is over, the current piece fits on the board. */
    ghost predicate Valid()
      reads this, board`grid, bag`bag
    {
      Consistent() && (!state.gameOver ==> board.CanPlace(state.current))
    }

    /** What `spawn_next_piece` does to the record `before` and the bag `bag0`: the next
        piece goes to the spawn point; if it fits there it becomes the current piece and the
        next piece is drawn from the bag, refilled by `shuffle` when empty; otherwise the
        next piece stays at the spawn point and the game is over. */
    ghost predicate SpawnedAfter(before: GameState, bag0: seq<PieceName>, shuffle: seq<PieceName>, after: GameState)
      reads board`grid, bag`bag
    {
      board.Valid() && WellFormed(before.nextPiece) &&
      var spawn := before.nextPiece.(x := SpawnX, y := SpawnY);
      var source := Refilled(bag0, shuffle);
      |source| > 0 &&
      if board.CanPlace(spawn) then
        after == before.(current := spawn, nextPiece := Spawned(source[|source| - 1])) &&
        bag.bag == source[..|source| - 1]
      else
        after == before.(nextPiece := spawn, gameOver := true) && bag.bag == bag0
    }

    /** The record once `lock_piece` has locked `s0.current` into `g0` and cleared the full
        rows, before the next piece spawns: the cleared rows counted, the points for them
        (at the level before they count) and `bonus` added, and the level recomputed. */
    static function Cleared(g0: Grid, s0: GameState, bonus: int): (r: GameState)
      requires WellFormed(s0.current)
      ensures r.current == s0.current && r.nextPiece == s0.nextPiece && r.gameOver == s0.gameOver
      ensures r.linesCleared - s0.linesCleared == FullRows(Locked(g0, s0.current))
      ensures r.level == CalculateLevel(r.linesCleared)
      ensures r.score - s0.score - bonus == ScoreForLines(FullRows(Locked(g0, s0.current)), s0.level)
    {
      var n := FullRows(Locked(g0, s0.current));
      var lines := s0.linesCleared + n;
      s0.(linesCleared := lines, score := s0.score + ScoreForLines(n, s0.level) + bonus,
          level := CalculateLevel(lines))
    }

    /** What `lock_piece` leaves, from the grid `g0`, the record `s0` and the bag `bag0`, in
        the board, the bag and the record `after`: the piece `s0.current` locked, the full
        rows cleared with as many empty rows on top, the record `Cleared` (with `bonus`
        points more), and the next piece spawned as `SpawnedAfter` says. */
    ghost predicate LockedFrom(g0: Grid, s0: GameState, bag0: seq<PieceName>, shuffle: seq<PieceName>,
                               bonus: int, after: GameState)
      reads board`grid, bag`bag
    {
      WellFormed(s0.current) &&
      var full := Locked(g0, s0.current);
      board.grid == EmptyGrid(BoardWidth, FullRows(full)) + Incomplete(full) &&
      SpawnedAfter(Cleared(g0, s0, bonus), bag0, shuffle, after)
    }

    /** Points added after the lock carry through: they only change the score. */
    lemma LockedFromBonus(g0: Grid, s0: GameState, bag0: seq<PieceName>, shuffle: seq<PieceName>,
                          after: GameState, bonus: int)
      requires LockedFrom(g0, s0, bag0, shuffle, 0, after)
      ensures LockedFrom(g0, s0, bag0, shuffle, bonus, after.(score := after.score + bonus))
    {
    }

    /** `__init__`: an empty board and the first two pieces of the first bag. The initial
        piece always fits, so the error branch is never taken. */
    constructor (shuffle: seq<PieceName>)
      requires IsShuffle(shuffle)
      ensures Valid() && fresh(board) && fresh(bag)
      ensures board.grid == EmptyGrid(BoardWidth, BoardHeight) && bag.bag == shuffle[..5]
      ensures state == GameState(Spawned(shuffle[6]), Spawned(shuffle[5]), 0, 1, 0, false)
    {
      var b := new Board(BoardWidth, BoardHeight);
      var pieces := new PieceBag();
      var current := pieces.NextPiece(shuffle);
      b.SpawnFits(current.name);
      var next := pieces.NextPiece(shuffle);
      assert shuffle[..6][..5] == shuffle[..5];
      board := b;
      bag := pieces;
      state := GameState(current, next, 0, 1, 0, false);
    }

    /** `try_move`: the piece moves when it fits where it lands. */
    method TryMove(dx: int, dy: int) returns (ok: bool)
      requires Valid()
      modifies this`state
      ensures Valid()
      ensures ok == board.CanPlace(Moved(old(state.current), dx, dy))
      ensures state == if ok then old(state).(current := Moved(old(state.current), dx, dy)) else old(state)
    {
      var moved := Moved(state.current, dx, dy);
      if board.CanPlace(moved) {
        board.PlaceableWithinWalls(moved);
        state := state.(current := moved);
        return true;
      }
      return false;
    }

    /** `try_rotate`: the turned piece takes the first kick that fits, or nothing changes. */
    method TryRotate(delta: int) returns (ok: bool)
      requires Valid()
      modifies this`state
      ensures Valid()
      ensures var turned := Rotated(old(state.current), delta);
              if ok then
                exists i :: 0 <= i < |Kicks| && state == old(state).(current := Moved(turned, Kicks[i], 0)) &&
                  board.CanPlace(Moved(turned, Kicks[i], 0)) &&
                  forall j :: 0 <= j < i ==> !board.CanPlace(Moved(turned, Kicks[j], 0))
              else
                state == old(state) && forall j :: 0 <= j < |Kicks| ==> !board.CanPlace(Moved(turned, Kicks[j], 0))
    {
      var turned := Rotated(state.current, delta);
      for i := 0 to |Kicks|
        invariant state == old(state)
        invariant forall j :: 0 <= j < i ==> !board.CanPlace(Moved(turned, Kicks[j], 0))
      {
        var candidate := Moved(turned, Kicks[i], 0);
        if board.CanPlace(candidate) {
          board.PlaceableWithinWalls(candidate);
          state := state.(current := candidate);
          return true;
        }
      }
      return false;
    }

    /** `spawn_next_piece`. */
    method SpawnNextPiece(shuffle: seq<PieceName>)
      requires Consistent() && IsShuffle(shuffle)
      modifies this`state, bag`bag
      ensures Valid()
      ensures SpawnedAfter(old(state), old(bag.bag), shuffle, state)
    {
      var spawn := state.nextPiece.(x := SpawnX, y := SpawnY);
      if !board.CanPlace(spawn) {
        state := state.(nextPiece := spawn, gameOver := true);
        return;
      }
      board.PlaceableWithinWalls(spawn);
      var next := bag.NextPiece(shuffle);
      state := state.(current := spawn, nextPiece := next);
    }

    /** `lock_piece`. */
    method LockPiece(shuffle: seq<PieceName>)
      requires Valid() && IsShuffle(shuffle)
      modifies this`state, board`grid, bag`bag
      ensures Valid()
      ensures LockedFrom(old(board.grid), old(state), old(bag.bag), shuffle, 0, state)
    {
      ghost var g0 := board.grid;
      board.LockPiece(state.current);
      var cleared := board.ClearCompleteLines();
      var lines := state.linesCleared + cleared;
      state := state.(linesCleared := lines, score := state.score + ScoreForLines(cleared, state.level),
                      level := CalculateLevel(lines));
      assert state == Cleared(g0, old(state), 0);
      SpawnNextPiece(shuffle);
    }

    /** The falling half of `hard_drop`: the piece moves down one row at a time while it
        fits, and the rows it fell are counted. */
    method DropDown() returns (distance: int)
      requires Valid()
      modifies this`state
      ensures Valid()
      ensures board.Landing(old(state.current), distance)
      ensures state == old(state).(current := Moved(old(state.current), 0, distance))
    {
      ghost var s0 := state;
      ghost var p0 := state.current;
      distance := 0;
      var moved := TryMove(0, 1);
      while moved
        invariant Valid()
        invariant distance >= 0
        invariant state == s0.(current := Moved(p0, 0, if moved then distance + 1 else distance))
        invariant board.ClearPath(p0, distance)
        invariant moved ==> board.CanPlace(state.current)
        invariant !moved ==> !board.CanPlace(Moved(p0, 0, distance + 1))
        decreases board.height - state.current.y + (if moved then 1 else 0)
      {
        board.PlaceableWithinWalls(state.current);
        board.ClearPathStep(p0, distance);
        distance := distance + 1;
        assert Moved(state.current, 0, 1) == Moved(p0, 0, distance + 1);
        moved := TryMove(0, 1);
      }
    }

    /** `hard_drop`: the piece falls as far as it fits, is locked there, and scores two
        points per row fallen. */
    method HardDrop(shuffle: seq<PieceName>) returns (distance: int)
      requires Valid() && IsShuffle(shuffle)
      modifies this`state, board`grid, bag`bag
      ensures Valid()
      ensures old(board.Landing(state.current, distance))
      ensures var landed := old(state).(current := Moved(old(state.current), 0, distance));
              LockedFrom(old(board.grid), landed, old(bag.bag), shuffle, 2 * distance, state)
    {
      distance := DropDown();
      ghost var landed := state;
      LockPiece(shuffle);
      LockedFromBonus(old(board.grid), landed, old(bag.bag), shuffle, state, 2 * distance);
      state := state.(score := state.score + distance * 2);
    }

    /** `tick`: nothing while the game is over; otherwise one row down, or lock when the
        piece cannot fall. Reports whether the game goes on. */
    method Tick(shuffle: seq<PieceName>) returns (alive: bool)
      requires Valid() && IsShuffle(shuffle)
      modifies this`state, board`grid, bag`bag
      ensures Valid()
      ensures alive == !state.gameOver
      ensures old(state.gameOver) ==> state == old(state) && board.grid == old(board.grid) && bag.bag == old(bag.bag)
      ensures !old(state.gameOver) && old(board.CanPlace(Moved(state.current, 0, 1))) ==>
                state == old(state).(current := Moved(old(state.current), 0, 1)) &&
                board.grid == old(board.grid) && bag.bag == old(bag.bag)
      ensures !old(state.gameOver) && !old(board.CanPlace(Moved(state.current, 0, 1))) ==>
                LockedFrom(old(board.grid), old(state), old(bag.bag), shuffle, 0, state)
    {
      if state.gameOver {
        return false;
      }
      var moved := TryMove(0, 1);
      if !moved {
        LockPiece(shuffle);
      }
      return !state.gameOver;
    }

    /** `ghost_piece`: the current piece dropped as far as it fits; it lands where a hard
        drop would. */
    method GhostPiece() returns (ghostPiece: Tetromino)
      requires Valid()
      ensures WellFormed(ghostPiece)
      ensures board.Landing(state.current, ghostPiece.y - state.current.y)
      ensures ghostPiece == Moved(state.current, 0, ghostPiece.y - state.current.y)
    {
      ghostPiece := state.current;
      while board.CanPlace(Moved(ghostPiece, 0, 1))
        invariant ghostPiece == Moved(state.current, 0, ghostPiece.y - state.current.y)
        invariant ghostPiece.y >= state.current.y
        invariant board.ClearPath(state.current, ghostPiece.y - state.current.y)
        decreases board.height - ghostPiece.y
      {
        board.PlaceableWithinWalls(Moved(ghostPiece, 0, 1));
        board.ClearPathStep(state.current, ghostPiece.y - state.current.y);
        ghostPiece := Moved(ghostPiece, 0, 1);
      }
    }
  }
}
