/** The program grid with its instruction pointer (index.js:86-127): rows of
    code units that may differ in length, a position and a heading, cell reads
    and writes, and a move that wraps once at each edge. */
module Programs {
  import opened Wrappers
  import opened Text
  import opened Directions

  /** Rows of cells, top row first; rows may have different lengths. */
  type Grid = seq<seq<Unit>>

  /** `code.split("\n")`: the rows of the source text, never fewer than one. */
  function Split(code: seq<Unit>): (rows: Grid)
    ensures |rows| > 0
    ensures forall i, j :: 0 <= i < |rows| && 0 <= j < |rows[i]| ==> rows[i][j] != Newline
  {
    if code == [] then [[]]
    else
      var rest := Split(code[1..]);
      if code[0] == Newline then [[]] + rest else [[code[0]] + rest[0]] + rest[1..]
  }

  /** The inverse of `Split`: the rows joined with line breaks. */
  function JoinLines(rows: Grid): seq<Unit>
    requires |rows| > 0
  {
    if |rows| == 1 then rows[0] else rows[0] + [Newline] + JoinLines(rows[1..])
  }

  /** Splitting loses nothing: the rows joined back give the source text. */
  lemma {:induction false} SplitJoin(code: seq<Unit>)
    ensures JoinLines(Split(code)) == code
  {
    if code != [] {
      var rest := Split(code[1..]);
      SplitJoin(code[1..]);
      if code[0] != Newline {
        var rows := Split(code);
        if |rest| == 1 {
          assert rows == [[code[0]] + rest[0]];
        } else {
          assert rows[1..] == rest[1..];
          assert JoinLines(rest) == rest[0] + [Newline] + JoinLines(rest[1..]);
        }
      }
    }
  }

  /** Rows without line breaks are exactly what splitting their join gives back. */
  lemma {:induction false} JoinSplit(rows: Grid)
    requires |rows| > 0
    requires forall i, j :: 0 <= i < |rows| && 0 <= j < |rows[i]| ==> rows[i][j] != Newline
    ensures Split(JoinLines(rows)) == rows
    decreases |rows|, |rows[0]|
  {
    var code := JoinLines(rows);
    if rows[0] == [] {
      if |rows| > 1 {
        assert code == [Newline] + JoinLines(rows[1..]);
        assert code[1..] == JoinLines(rows[1..]);
        JoinSplit(rows[1..]);
        assert [[]] + rows[1..] == rows;
      }
    } else {
      var shorter := [rows[0][1..]] + rows[1..];
      assert shorter[1..] == rows[1..];
      assert JoinLines(shorter) == code[1..] by {
        if |rows| > 1 {
          assert code == [rows[0][0]] + (rows[0][1..] + [Newline] + JoinLines(rows[1..]));
        } else {
          assert code == [rows[0][0]] + rows[0][1..];
        }
      }
      JoinSplit(shorter);
      assert [rows[0][0]] + shorter[0] == rows[0];
      assert [[rows[0][0]] + shorter[0]] + shorter[1..] == rows;
    }
  }

  /** `_clamp`: a coordinate that left [0, length) by less than one length is
      brought back by adding or subtracting the length once. */
  function Clamp(value: int, length: int): int
  {
    if value >= length then value - length else if value < 0 then value + length else value
  }

  /** `_clamp` agrees with true modulo exactly on [-length, 2 * length): it is one wrap, not a modulo. */
  lemma ClampIsModuloExactly(value: int, length: int)
    requires length > 0
    ensures Clamp(value, length) == value % length <==> -length <= value < 2 * length
  {
    if value >= 2 * length {
      assert Clamp(value, length) >= length;
    } else if value < -length {
      assert Clamp(value, length) < 0;
    } else if value >= length {
      assert value % length == value - length by {
        assert value == 1 * length + (value - length);
      }
    } else if value < 0 {
      assert value % length == value + length by {
        assert value == -1 * length + (value + length);
      }
    }
  }

  /** The cell at (x, y); `None` stands for both failed reads: the `undefined` of an x outside an
      existing row, and the TypeError JavaScript throws when y is not a row. */
  function CellAt(rows: Grid, x: int, y: int): (cell: Option<Unit>)
    ensures cell.Some? <==> InBounds(rows, x, y)
  {
    if InBounds(rows, x, y) then Some(rows[y][x]) else None
  }

  predicate InBounds(rows: Grid, x: int, y: int)
  {
    0 <= y < |rows| && 0 <= x < |rows[y]|
  }

  /** The grid with the one cell (x, y) overwritten by u. */
  function Write(rows: Grid, x: int, y: int, u: Unit): (r: Grid)
    requires InBounds(rows, x, y)
    ensures |r| == |rows|
    ensures forall i :: 0 <= i < |rows| ==> |r[i]| == |rows[i]|
  {
    var row: seq<Unit> := rows[y][x := u];
    rows[y := row]
  }

  /** A write is seen by a read of the same cell and by no other cell. */
  lemma ReadAfterWrite(rows: Grid, x: int, y: int, u: Unit, x': int, y': int)
    requires InBounds(rows, x, y)
    ensures CellAt(Write(rows, x, y, u), x', y') == if x' == x && y' == y then Some(u) else CellAt(rows, x', y')
  {
  }

  /** `move`: one step along the heading, wrapping y against the number of rows
      first and then x against the length of the row the pointer lands on. */
  function Advance(rows: Grid, x: int, y: int, d: Direction): (r: (int, int))
    requires 0 <= y < |rows|
    ensures 0 <= r.1 < |rows|
  {
    var (dx, dy) := Delta(d);
    var ny := Clamp(y + dy, |rows|);
    (Clamp(x + dx, |rows[ny]|), ny)
  }

  /** Every row has the same, positive, length. */
  predicate Rectangular(rows: Grid)
  {
    |rows| > 0 && forall i :: 0 <= i < |rows| ==> |rows[i]| == |rows[0]| > 0
  }

  /** On a rectangular grid a move from a cell lands on a cell, and the wrap is
      toroidal: both coordinates are taken modulo the grid's size. */
  lemma AdvanceStaysInBounds(rows: Grid, x: int, y: int, d: Direction)
    requires Rectangular(rows) && InBounds(rows, x, y)
    ensures InBounds(rows, Advance(rows, x, y, d).0, Advance(rows, x, y, d).1)
    ensures Advance(rows, x, y, d) == ((x + Delta(d).0) % |rows[0]|, (y + Delta(d).1) % |rows|)
  {
    var (dx, dy) := Delta(d);
    ClampIsModuloExactly(y + dy, |rows|);
    ClampIsModuloExactly(x + dx, |rows[0]|);
  }

  /** Moving right off the end of a row re-enters at its first column; moving left
      off column 0 re-enters at its last column. */
  lemma WrapsHorizontally(rows: Grid, y: int)
    requires 0 <= y < |rows| && |rows[y]| > 0
    ensures Advance(rows, |rows[y]| - 1, y, Right) == (0, y)
    ensures Advance(rows, 0, y, Left) == (|rows[y]| - 1, y)
  {
  }

  /** Moving down off the last row re-enters the top row, and moving up off the top
      row re-enters the last one; x is then wrapped against the row entered. */
  lemma WrapsVertically(rows: Grid, x: int)
    requires |rows| > 0
    ensures Advance(rows, x, |rows| - 1, Down) == (Clamp(x, |rows[0]|), 0)
    ensures Advance(rows, x, 0, Up) == (Clamp(x, |rows[|rows| - 1]|), |rows| - 1)
  {
  }

  /** On rows of different lengths one wrap is not enough: going down from the
      sixth column of a six-cell row onto a one-cell row leaves the pointer
      outside the row it lands on. */
  lemma RaggedMoveCanLeaveRow()
    ensures var rows: Grid := [[0, 0, 0, 0, 0, 0], [0]];
      Advance(rows, 5, 0, Down) == (4, 1) && !InBounds(rows, 4, 1)
  {
  }

  /** The grid and the instruction pointer; `rows` is `_program`, (x, y) is
      `_position` and `direction` is `_direction`. */
  class Program {
    var direction: Direction
    var x: int
    var y: int
    var rows: Grid

    /** The pointer's row exists; x may lie outside it (reads there give `undefined`). */
    ghost predicate Valid()
      reads this
    {
      0 <= y < |rows|
    }

    /** `Program.fromString`: a program over the rows of the source text. */
    static method FromString(code: seq<Unit>) returns (p: Program)
      ensures fresh(p) && p.Valid()
      ensures p.rows == Split(code) && JoinLines(p.rows) == code
      ensures p.x == 0 && p.y == 0 && p.direction == Right
    {
      SplitJoin(code);
      p := new Program(Split(code));
    }

    /** The pointer starts at the top-left cell heading right. */
    constructor (rows: Grid)
      requires |rows| > 0
      ensures Valid() && this.rows == rows
      ensures x == 0 && y == 0 && direction == Right
    {
      this.direction := Right;
      this.x, this.y := 0, 0;
      this.rows := rows;
    }

    /** `getCharAt([x, y])`. */
    method GetCharAt(cx: int, cy: int) returns (cell: Option<Unit>)
      ensures cell.Some? <==> InBounds(rows, cx, cy)
      ensures cell.Some? ==> cell.value == rows[cy][cx]
    {
      if 0 <= cy < |rows| && 0 <= cx < |rows[cy]| {
        cell := Some(rows[cy][cx]);
      } else {
        cell := None;
      }
    }

    /** `instruction`: the cell under the pointer. */
    method Instruction() returns (cell: Option<Unit>)
      ensures cell == CellAt(rows, x, y)
    {
      cell := GetCharAt(x, y);
    }

    /** `setCharAt([x, y], char)`: overwrites one existing cell; a write outside
        the grid is refused (`ok` is false) and changes nothing. */
    method SetCharAt(cx: int, cy: int, u: Unit) returns (ok: bool)
      modifies this`rows
      ensures ok <==> InBounds(old(rows), cx, cy)
      ensures rows == if ok then Write(old(rows), cx, cy, u) else old(rows)
    {
      ok := 0 <= cy < |rows| && 0 <= cx < |rows[cy]|;
      if ok {
        var row: seq<Unit> := rows[cy][cx := u];
        rows := rows[cy := row];
      }
    }

    /** `setDirection`. */
    method SetDirection(d: Direction)
      modifies this`direction
      ensures direction == d
    {
      direction := d;
    }

    /** `move`: one step along the heading with wrap-around. */
    method Move()
      requires Valid()
      modifies this`x, this`y
      ensures Valid()
      ensures (x, y) == Advance(rows, old(x), old(y), direction)
    {
      var (dx, dy) := Delta(direction);
      var ny := Clamp(y + dy, |rows|);
      var nx := Clamp(x + dx, |rows[ny]|);
      x, y := nx, ny;
    }
  }
}
