/** Tetromino shapes: each piece is drawn as a square picture of '#' and '.' rows, its four
    rotation states are the picture turned clockwise again and again, and a state is the
    list of its '#' positions as (x, y) offsets. */
module Shapes {

  type Coordinate = (int, int)

  /** `RotationState`: the offsets of a piece's cells in one rotation. */
  datatype RotationState = RotationState(coordinates: seq<Coordinate>)

  /** A picture: one string per row. */
  type Picture = seq<string>

  /** Every row is at least as long as the picture is high, which is what a clockwise turn
      needs to read its columns. */
  predicate Wide(m: Picture) {
    forall i :: 0 <= i < |m| ==> |m[i]| >= |m|
  }

  predicate Square(m: Picture) {
    forall i :: 0 <= i < |m| ==> |m[i]| == |m|
  }

  // ---------------------------------------------------------------------------------
  // from_strings

  /** The '#' positions of row y from column x onwards, left to right. */
  function RowCells(row: string, x: nat, y: int): seq<Coordinate>
    decreases |row| - x
  {
    if x >= |row| then []
    else (if row[x] == '#' then [(x, y)] else []) + RowCells(row, x + 1, y)
  }

  /** The '#' positions of the rows from y downwards, row by row and left to right in
      each. */
  function CellsFrom(rows: Picture, y: nat): seq<Coordinate>
    decreases |rows| - y
  {
    if y >= |rows| then []
    else RowCells(rows[y], 0, y) + CellsFrom(rows, y + 1)
  }

  /** The '#' positions of a picture in reading order. */
  function Cells(rows: Picture): seq<Coordinate> {
    CellsFrom(rows, 0)
  }

  /** `RotationState.from_strings`: the nested loop over rows and columns collects exactly
      the positions `Cells` lists. */
  method FromStrings(rows: Picture) returns (state: RotationState)
    ensures state.coordinates == Cells(rows)
  {
    var coords: seq<Coordinate> := [];
    for y := 0 to |rows|
      invariant coords + CellsFrom(rows, y) == Cells(rows)
    {
      for x := 0 to |rows[y]|
        invariant coords + RowCells(rows[y], x, y) + CellsFrom(rows, y + 1) == Cells(rows)
      {
        if rows[y][x] == '#' {
          assert RowCells(rows[y], x, y) == [(x, y)] + RowCells(rows[y], x + 1, y);
          coords := coords + [(x, y)];
        }
      }
    }
    state := RotationState(coords);
  }

  lemma {:induction false} RowCellsMembers(row: string, x: nat, y: int, c: Coordinate)
    ensures c in RowCells(row, x, y) <==> c.1 == y && x <= c.0 < |row| && row[c.0] == '#'
    decreases |row| - x
  {
    if x < |row| {
      RowCellsMembers(row, x + 1, y, c);
    }
  }

  lemma {:induction false} CellsFromMembers(rows: Picture, y: nat, c: Coordinate)
    ensures c in CellsFrom(rows, y) <==> y <= c.1 < |rows| && 0 <= c.0 < |rows[c.1]| && rows[c.1][c.0] == '#'
    decreases |rows| - y
  {
    if y < |rows| {
      CellsFromMembers(rows, y + 1, c);
      RowCellsMembers(rows[y], 0, y, c);
    }
  }

  /** A position is listed exactly when it lies in the picture and holds a '#'. */
  lemma CellsMembers(rows: Picture, c: Coordinate)
    ensures c in Cells(rows) <==> 0 <= c.1 < |rows| && 0 <= c.0 < |rows[c.1]| && rows[c.1][c.0] == '#'
  {
    CellsFromMembers(rows, 0, c);
  }

  /** Reading order: an earlier row, or the same row further left. */
  predicate Before(a: Coordinate, b: Coordinate) {
    a.1 < b.1 || (a.1 == b.1 && a.0 < b.0)
  }

  predicate Increasing(s: seq<Coordinate>) {
    forall i, j :: 0 <= i < j < |s| ==> Before(s[i], s[j])
  }

  lemma IncreasingAppend(a: seq<Coordinate>, b: seq<Coordinate>)
    requires Increasing(a) && Increasing(b)
    requires forall p, q :: p in a && q in b ==> Before(p, q)
    ensures Increasing(a + b)
  {
    var s := a + b;
    forall i, j | 0 <= i < j < |s| ensures Before(s[i], s[j]) {
      if j < |a| {
        assert s[i] == a[i] && s[j] == a[j];
      } else if i >= |a| {
        assert s[i] == b[i - |a|] && s[j] == b[j - |a|];
      } else {
        assert s[i] == a[i] && s[j] == b[j - |a|];
      }
    }
  }

  lemma {:induction false} RowCellsIncreasing(row: string, x: nat, y: int)
    ensures Increasing(RowCells(row, x, y))
    decreases |row| - x
  {
    if x < |row| {
      RowCellsIncreasing(row, x + 1, y);
      forall q | q in RowCells(row, x + 1, y) ensures Before((x, y), q) {
        RowCellsMembers(row, x + 1, y, q);
      }
      IncreasingAppend(if row[x] == '#' then [(x, y)] else [], RowCells(row, x + 1, y));
    }
  }

  lemma {:induction false} CellsFromIncreasing(rows: Picture, y: nat)
    ensures Increasing(CellsFrom(rows, y))
    decreases |rows| - y
  {
    if y < |rows| {
      CellsFromIncreasing(rows, y + 1);
      RowCellsIncreasing(rows[y], 0, y);
      forall p, q | p in RowCells(rows[y], 0, y) && q in CellsFrom(rows, y + 1) ensures Before(p, q) {
        RowCellsMembers(rows[y], 0, y, p);
        CellsFromMembers(rows, y + 1, q);
      }
      IncreasingAppend(RowCells(rows[y], 0, y), CellsFrom(rows, y + 1));
    }
  }

  /** The positions come in reading order, so none is listed twice. */
  lemma CellsIncreasing(rows: Picture)
    ensures Increasing(Cells(rows))
  {
    CellsFromIncreasing(rows, 0);
  }

  // ---------------------------------------------------------------------------------
  // _rotate_clockwise

  /** `_rotate_clockwise`: row y of the result is column y of the picture read from the
      bottom up. */
  function RotateClockwise(m: Picture): (r: Picture)
    requires Wide(m)
    ensures |r| == |m| && Square(r)
    ensures forall y, x :: 0 <= y < |m| && 0 <= x < |m| ==> r[y][x] == m[|m| - 1 - x][y]
  {
    seq(|m|, y requires 0 <= y < |m| => seq(|m|, x requires 0 <= x < |m| => m[|m| - 1 - x][y]))
  }

  /** Two clockwise turns are a half turn. */
  lemma HalfTurn(m: Picture)
    requires Square(m)
    ensures var h := RotateClockwise(RotateClockwise(m));
            |h| == |m| && Square(h) &&
            forall y, x :: 0 <= y < |m| && 0 <= x < |m| ==> h[y][x] == m[|m| - 1 - y][|m| - 1 - x]
  {
  }

  /** Four clockwise turns give back the picture. */
  lemma FourTurnsIdentity(m: Picture)
    requires Square(m)
    ensures RotateClockwise(RotateClockwise(RotateClockwise(RotateClockwise(m)))) == m
  {
    var h := RotateClockwise(RotateClockwise(m));
    HalfTurn(m);
    HalfTurn(h);
    var f := RotateClockwise(RotateClockwise(h));
    forall y | 0 <= y < |m| ensures f[y] == m[y] {
      assert forall x :: 0 <= x < |m| ==> f[y][x] == m[y][x];
    }
  }

  /** Where a clockwise turn of an n-by-n picture puts the cell at (x, y). */
  function TurnCell(p: Coordinate, n: int): Coordinate {
    (n - 1 - p.1, p.0)
  }

  function Elements(s: seq<Coordinate>): set<Coordinate> {
    set c | c in s
  }

  function TurnImage(s: set<Coordinate>, n: int): set<Coordinate> {
    set p | p in s :: TurnCell(p, n)
  }

  /** The cells of the turned picture are the turned cells. */
  lemma TurnedCells(m: Picture)
    requires Square(m)
    ensures Elements(Cells(RotateClockwise(m))) == TurnImage(Elements(Cells(m)), |m|)
  {
    var n := |m|;
    var r := RotateClockwise(m);
    forall c | c in Cells(r) ensures c in TurnImage(Elements(Cells(m)), n) {
      CellsMembers(r, c);
      var p := (c.1, n - 1 - c.0);
      CellsMembers(m, p);
      assert TurnCell(p, n) == c;
    }
    forall p | p in Cells(m) ensures TurnCell(p, n) in Cells(r) {
      CellsMembers(m, p);
      CellsMembers(r, TurnCell(p, n));
    }
  }

  lemma {:induction false} TurnImageCard(s: set<Coordinate>, n: int)
    ensures |TurnImage(s, n)| == |s|
    decreases s
  {
    if s != {} {
      var p :| p in s;
      var rest := s - {p};
      TurnImageCard(rest, n);
      assert TurnImage(s, n) == TurnImage(rest, n) + {TurnCell(p, n)};
      assert TurnCell(p, n) !in TurnImage(rest, n);
    }
  }

  lemma {:induction false} IncreasingCard(s: seq<Coordinate>)
    requires Increasing(s)
    ensures |Elements(s)| == |s|
    decreases |s|
  {
    if s != [] {
      var front := s[..|s| - 1];
      assert Increasing(front);
      IncreasingCard(front);
      assert Elements(s) == Elements(front) + {s[|s| - 1]};
      assert s[|s| - 1] !in front;
    }
  }

  /** A clockwise turn keeps the number of cells. */
  lemma TurnKeepsCellCount(m: Picture)
    requires Square(m)
    ensures |Cells(RotateClockwise(m))| == |Cells(m)|
  {
    CellsIncreasing(m);
    CellsIncreasing(RotateClockwise(m));
    IncreasingCard(Cells(m));
    IncreasingCard(Cells(RotateClockwise(m)));
    TurnedCells(m);
    TurnImageCard(Elements(Cells(m)), |m|);
  }

  // ---------------------------------------------------------------------------------
  // _build_cycle

  /** The picture after k clockwise turns. */
  function Turned(base: Picture, k: nat): (r: Picture)
    requires Wide(base)
    ensures |r| == |base|
    ensures k > 0 ==> Square(r)
    ensures Wide(r)
  {
    if k == 0 then base else RotateClockwise(Turned(base, k - 1))
  }

  /** The four rotation states of a picture: itself and three more clockwise turns. */
  function Cycle(base: Picture): (c: seq<RotationState>)
    requires Wide(base)
    ensures |c| == 4
    ensures forall k :: 0 <= k < 4 ==> c[k] == RotationState(Cells(Turned(base, k)))
  {
    seq(4, k requires 0 <= k < 4 => RotationState(Cells(Turned(base, k))))
  }

  /** `_build_cycle`: the base picture, then three turns each of the one before, then each
      picture's '#' positions. */
  method BuildCycle(base: Picture) returns (states: seq<RotationState>)
    requires Wide(base)
    ensures states == Cycle(base)
    ensures states[0] == RotationState(Cells(base))
    ensures forall k :: 1 <= k < 4 ==> states[k] == RotationState(Cells(RotateClockwise(Turned(base, k - 1))))
  {
    var pictures := [base];
    for i := 0 to 3
      invariant |pictures| == i + 1
      invariant forall k :: 0 <= k <= i ==> pictures[k] == Turned(base, k)
    {
      pictures := pictures + [RotateClockwise(pictures[i])];
    }
    states := [];
    for i := 0 to 4
      invariant |states| == i
      invariant forall k :: 0 <= k < i ==> states[k] == RotationState(Cells(Turned(base, k)))
    {
      var state := FromStrings(pictures[i]);
      states := states + [state];
    }
  }

  // ---------------------------------------------------------------------------------
  // BASE_SHAPES and TETROMINOES

  /** The seven piece names, in the order of the shape table. */
  datatype PieceName = I | O | T | L | J | S | Z

  const Names: seq<PieceName> := [I, O, T, L, J, S, Z]

  /** `BASE_SHAPES`. */
  function BaseShape(name: PieceName): Picture {
    match name
    case I => ["....", "####", "....", "...."]
    case O => [".##.", ".##.", "....", "...."]
    case T => ["....", ".###", "..#.", "...."]
    case L => ["....", "###.", "..#.", "...."]
    case J => ["....", "###.", "#...", "...."]
    case S => ["....", "..##", ".##.", "...."]
    case Z => ["....", ".##.", "..##", "...."]
  }

  /** Every base picture is 4 by 4 with exactly four '#'. */
  lemma BaseShapeWellFormed(name: PieceName)
    ensures |BaseShape(name)| == 4 && Square(BaseShape(name))
    ensures |Cells(BaseShape(name))| == 4
  {
    match name
    case I => FourCellsI();
    case O => FourCellsO();
    case T => FourCellsT();
    case L => FourCellsL();
    case J => FourCellsJ();
    case S => FourCellsS();
    case Z => FourCellsZ();
  }

  lemma FourCellsI() ensures |Cells(["....", "####", "....", "...."])| == 4 {}
  lemma FourCellsO() ensures |Cells([".##.", ".##.", "....", "...."])| == 4 {}
  lemma FourCellsT() ensures |Cells(["....", ".###", "..#.", "...."])| == 4 {}
  lemma FourCellsL() ensures |Cells(["....", "###.", "..#.", "...."])| == 4 {}
  lemma FourCellsJ() ensures |Cells(["....", "###.", "#...", "...."])| == 4 {}
  lemma FourCellsS() ensures |Cells(["....", "..##", ".##.", "...."])| == 4 {}
  lemma FourCellsZ() ensures |Cells(["....", ".##.", "..##", "...."])| == 4 {}

  /** `TETROMINOES[name]`. */
  function Rotations(name: PieceName): (c: seq<RotationState>)
    ensures |c| == 4
  {
    BaseShapeWellFormed(name);
    Cycle(BaseShape(name))
  }

  /** The offsets of a state lie in the 4 by 4 square. */
  predicate InSquare(state: RotationState) {
    forall c :: c in state.coordinates ==> 0 <= c.0 < 4 && 0 <= c.1 < 4
  }

  /** Every rotation state of every piece has exactly four cells, all inside the 4 by 4
      square of its picture. */
  lemma {:induction false} RotationStateCells(name: PieceName, k: nat)
    requires k < 4
    ensures |Rotations(name)[k].coordinates| == 4
    ensures InSquare(Rotations(name)[k])
  {
    BaseShapeWellFormed(name);
    TurnedCellCount(BaseShape(name), k);
    var t := Turned(BaseShape(name), k);
    forall c | c in Cells(t) ensures 0 <= c.0 < 4 && 0 <= c.1 < 4 {
      CellsMembers(t, c);
    }
  }

  lemma {:induction false} TurnedCellCount(base: Picture, k: nat)
    requires Square(base)
    ensures |Cells(Turned(base, k))| == |Cells(base)|
    ensures Square(Turned(base, k))
  {
    if k > 0 {
      TurnedCellCount(base, k - 1);
      TurnKeepsCellCount(Turned(base, k - 1));
    }
  }

  /** `iterate_cells`: each offset moved by the origin. */
  function Translate(coords: seq<Coordinate>, ox: int, oy: int): (r: seq<Coordinate>)
    ensures |r| == |coords|
    ensures forall i :: 0 <= i < |r| ==> r[i] == (coords[i].0 + ox, coords[i].1 + oy)
  {
    seq(|coords|, i requires 0 <= i < |coords| => (coords[i].0 + ox, coords[i].1 + oy))
  }

  /** Moving by an offset and back gives the cells back, and two moves are one move by the
      sum. */
  lemma TranslateInverse(coords: seq<Coordinate>, ox: int, oy: int)
    ensures Translate(Translate(coords, ox, oy), -ox, -oy) == coords
  {
  }

  lemma TranslateCompose(coords: seq<Coordinate>, ax: int, ay: int, bx: int, bY: int)
    ensures Translate(Translate(coords, ax, ay), bx, bY) == Translate(coords, ax + bx, ay + bY)
  {
  }
}
