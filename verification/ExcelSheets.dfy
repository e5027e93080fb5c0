/** What a report binding puts on a sheet: the rows of its frames, one below the other, and the
    three ways to write them. */
module ExcelSheets {
  import opened Wrappers

  const MAX_COLUMN := 16384
  const MAX_ROW := 1048576

  type ColumnNumber = c: int | 1 <= c <= MAX_COLUMN witness 1
  type RowNumber = r: int | 1 <= r <= MAX_ROW witness 1

  /** `Empty` is a nil: writing it leaves the cell empty. */
  datatype CellValue = Empty | Title(name: string) | Data(value: nat)

  datatype Field = Field(name: string, cells: seq<CellValue>)

  /** A nil frame is one without fields. */
  datatype Frame = Frame(fields: seq<Field>)

  /** A row of values from a column on. */
  datatype Line = Line(col: int, row: int, values: seq<CellValue>)

  datatype Stats = Stats(rows: nat, cells: nat, frames: nat)

  type Grid = map<(int, int), CellValue>

  datatype Error = Incomplete | BadSheet | BadCellName | BadMode
                 | MixedModes | BadClearRange | NotAscending | OutOfBounds

  // ---- Layout ----

  function RowCount(f: Frame): nat {
    if f.fields == [] then 0 else |f.fields[0].cells|
  }

  function CellAt(field: Field, i: nat): CellValue {
    if i < |field.cells| then field.cells[i] else Empty
  }

  function Titles(f: Frame): seq<CellValue> {
    seq(|f.fields|, j requires 0 <= j < |f.fields| => Title(f.fields[j].name))
  }

  function RowValues(f: Frame, i: nat): seq<CellValue> {
    seq(|f.fields|, j requires 0 <= j < |f.fields| => CellAt(f.fields[j], i))
  }

  function FrameLines(f: Frame, header: bool, col: int, row: int): seq<Line> {
    var first := if header then row + 1 else row;
    (if header then [Line(col, row, Titles(f))] else [])
    + seq(RowCount(f), i requires 0 <= i < RowCount(f) => Line(col, first + i, RowValues(f, i)))
  }

  function LineCount(f: Frame, header: bool): nat {
    RowCount(f) + if header then 1 else 0
  }

  /** Lines that were placed, and the row after the last. */
  datatype Placed = Placed(lines: seq<Line>, cursor: int)

  /** A frame below what was placed.  A frame without fields takes no row, but every frame that is
      not the first of its list is set off by an empty row. */
  function Place(before: Placed, f: Frame, first: bool, header: bool, col: int): Placed {
    if f.fields == [] then before
    else
      var start := if first then before.cursor else before.cursor + 1;
      Placed(before.lines + FrameLines(f, header, col, start), start + LineCount(f, header))
  }

  /** The first `n` frames from a row on. */
  function LayoutFirst(frames: seq<Frame>, n: nat, header: bool, col: int, row: int): Placed
    requires n <= |frames|
  {
    if n == 0 then Placed([], row)
    else Place(LayoutFirst(frames, n - 1, header, col, row), frames[n - 1], n == 1, header, col)
  }

  function Layout(frames: seq<Frame>, header: bool, col: int, row: int): seq<Line> {
    LayoutFirst(frames, |frames|, header, col, row).lines
  }

  function AddStats(a: Stats, b: Stats): Stats {
    Stats(a.rows + b.rows, a.cells + b.cells, a.frames + b.frames)
  }

  function CellCount(lines: nat, width: nat): nat {
    if lines == 0 then 0 else CellCount(lines - 1, width) + width
  }

  /** `n` lines of `width` values each. */
  function LineStats(n: nat, width: nat): Stats {
    Stats(n, CellCount(n, width), 1)
  }

  function FrameStats(f: Frame, header: bool): Stats {
    if f.fields == [] then Stats(0, 0, 0) else LineStats(LineCount(f, header), |f.fields|)
  }

  /** The statistics of the first `n` frames. */
  function StatsFirst(frames: seq<Frame>, n: nat, header: bool): Stats
    requires n <= |frames|
  {
    if n == 0 then Stats(0, 0, 0)
    else AddStats(StatsFirst(frames, n - 1, header), FrameStats(frames[n - 1], header))
  }

  function StatsOf(frames: seq<Frame>, header: bool): Stats {
    StatsFirst(frames, |frames|, header)
  }

  predicate Ascending(lines: seq<Line>) {
    forall i, j | 0 <= i < j < |lines| :: lines[i].row < lines[j].row
  }

  /** `lines` take rows from `low` on, in order, with something to write in each. */
  predicate Below(lines: seq<Line>, col: int, low: int) {
    && Ascending(lines)
    && forall i | 0 <= i < |lines| :: lines[i].row >= low && lines[i].col == col && lines[i].values != []
  }

  lemma FrameLinesBelow(f: Frame, header: bool, col: int, row: int)
    requires f.fields != []
    ensures var lines := FrameLines(f, header, col, row);
            && |lines| == LineCount(f, header) && Below(lines, col, row)
            && forall i | 0 <= i < |lines| :: lines[i].row == row + i && |lines[i].values| == |f.fields|
  {
  }

  lemma BelowBoth(a: seq<Line>, b: seq<Line>, col: int, low: int, middle: int)
    requires Below(a, col, low) && Below(b, col, middle) && low <= middle
    requires forall i | 0 <= i < |a| :: a[i].row < middle
    ensures Below(a + b, col, low)
  {
  }

  ghost predicate WellPlaced(p: Placed, col: int, row: int) {
    && Below(p.lines, col, row) && row <= p.cursor
    && forall i | 0 <= i < |p.lines| :: p.lines[i].row < p.cursor
  }

  lemma PlaceKeeps(p: Placed, f: Frame, first: bool, header: bool, col: int, row: int)
    requires WellPlaced(p, col, row)
    ensures var after := Place(p, f, first, header, col);
            WellPlaced(after, col, row) && |after.lines| == |p.lines| + FrameStats(f, header).rows
  {
    if f.fields != [] {
      var start := if first then p.cursor else p.cursor + 1;
      FrameLinesBelow(f, header, col, start);
      BelowBoth(p.lines, FrameLines(f, header, col, start), col, row, start);
    }
  }

  /** The rows of a layout ascend, and the statistics count them. */
  lemma {:induction false} LayoutAscends(frames: seq<Frame>, n: nat, header: bool, col: int, row: int)
    requires n <= |frames|
    ensures var placed := LayoutFirst(frames, n, header, col, row);
            WellPlaced(placed, col, row) && |placed.lines| == StatsFirst(frames, n, header).rows
    decreases n
  {
    if n > 0 {
      LayoutAscends(frames, n - 1, header, col, row);
      PlaceKeeps(LayoutFirst(frames, n - 1, header, col, row), frames[n - 1], n == 1, header, col, row);
    }
  }

  // ---- Grids ----

  function Put(grid: Grid, col: int, row: int, v: CellValue): Grid {
    if v.Empty? then grid - {(col, row)} else grid[(col, row) := v]
  }

  function PutValues(grid: Grid, col: int, row: int, values: seq<CellValue>): Grid
    decreases |values|
  {
    var n := |values| - 1;
    if values == [] then grid else Put(PutValues(grid, col, row, values[..n]), col + n, row, values[n])
  }

  function Painted(grid: Grid, lines: seq<Line>): Grid {
    var n := |lines| - 1;
    if lines == [] then grid else PutValues(Painted(grid, lines[..n]), lines[n].col, lines[n].row, lines[n].values)
  }

  predicate Fits(line: Line) {
    line.values == [] || (line.row <= MAX_ROW && line.col + |line.values| - 1 <= MAX_COLUMN)
  }

  predicate AllFit(lines: seq<Line>) {
    forall i | 0 <= i < |lines| :: Fits(lines[i])
  }

  /** The position of a value on the grid. */
  predicate Covers(line: Line, col: int, row: int) {
    line.row == row && line.col <= col < line.col + |line.values|
  }

  lemma {:induction false} PutValuesAt(grid: Grid, line: Line, col: int, row: int)
    ensures var after := PutValues(grid, line.col, line.row, line.values);
            if Covers(line, col, row) then
              var v := line.values[col - line.col];
              if v.Empty? then (col, row) !in after else (col, row) in after && after[(col, row)] == v
            else ((col, row) in after <==> (col, row) in grid)
                 && ((col, row) in grid ==> after[(col, row)] == grid[(col, row)])
    decreases |line.values|
  {
    if line.values != [] {
      PutValuesAt(grid, line.(values := line.values[..|line.values| - 1]), col, row);
    }
  }

  /** What is read back from a sheet: every value of every line is at its place, and nothing else
      was added.  No line overwrites another, since their rows ascend. */
  lemma {:induction false} PaintedAt(lines: seq<Line>, i: nat, col: int)
    requires Ascending(lines) && i < |lines| && lines[i].col <= col < lines[i].col + |lines[i].values|
    ensures var grid, v := Painted(map[], lines), lines[i].values[col - lines[i].col];
            if v.Empty? then (col, lines[i].row) !in grid
            else (col, lines[i].row) in grid && grid[(col, lines[i].row)] == v
    decreases |lines|
  {
    var n := |lines| - 1;
    var before := Painted(map[], lines[..n]);
    PutValuesAt(before, lines[n], col, lines[i].row);
    if i < n {
      assert lines[..n][i] == lines[i];
      PaintedAt(lines[..n], i, col);
    }
  }

  lemma {:induction false} PaintedOnlyThere(lines: seq<Line>, col: int, row: int)
    requires (col, row) in Painted(map[], lines)
    ensures exists i :: 0 <= i < |lines| && Covers(lines[i], col, row)
    decreases |lines|
  {
    var n := |lines| - 1;
    if lines != [] {
      PutValuesAt(Painted(map[], lines[..n]), lines[n], col, row);
      if !Covers(lines[n], col, row) {
        PaintedOnlyThere(lines[..n], col, row);
        var i :| 0 <= i < n && Covers(lines[..n][i], col, row);
        assert Covers(lines[i], col, row);
      }
    }
  }

  lemma PaintedNext(grid: Grid, lines: seq<Line>, line: Line)
    ensures Painted(grid, lines + [line]) == PutValues(Painted(grid, lines), line.col, line.row, line.values)
  {
    assert (lines + [line])[..|lines|] == lines;
  }

  /** `setExcelReportRow`: one cell after the other, or the whole row at once. */
  method SetRow(grid: Grid, line: Line, cellByCell: bool) returns (r: Option<Grid>)
    requires line.col >= 1 && line.row >= 1
    ensures r == if Fits(line) then Some(PutValues(grid, line.col, line.row, line.values)) else None
  {
    if !cellByCell {
      return if Fits(line) then Some(PutValues(grid, line.col, line.row, line.values)) else None;
    }
    var g := grid;
    for j := 0 to |line.values|
      invariant g == PutValues(grid, line.col, line.row, line.values[..j])
      invariant j > 0 ==> line.row <= MAX_ROW && line.col + j - 1 <= MAX_COLUMN
    {
      if line.row > MAX_ROW || line.col + j > MAX_COLUMN {
        return None;
      }
      assert line.values[..j + 1][..j] == line.values[..j];
      g := Put(g, line.col + j, line.row, line.values[j]);
    }
    assert line.values[..|line.values|] == line.values;
    return Some(g);
  }

  // ---- Stream logs ----

  function LastRow(log: seq<Line>): int {
    if log == [] then 0 else log[|log| - 1].row
  }

  /** A stream writes no cell for an empty value, so only the others have to fit. */
  predicate StreamFits(line: Line) {
    && line.col <= MAX_COLUMN && line.row <= MAX_ROW
    && forall j | 0 <= j < |line.values| && !line.values[j].Empty? :: line.col + j <= MAX_COLUMN
  }

  function SetRowError(log: seq<Line>, line: Line): Option<Error> {
    if line.row <= LastRow(log) then Some(NotAscending)
    else if !StreamFits(line) then Some(OutOfBounds)
    else None
  }

  datatype Streamed = Streamed(log: seq<Line>, error: Option<Error>)

  /** Lines streamed one by one, up to the first that is refused. */
  function Stream(log: seq<Line>, lines: seq<Line>): Streamed
    decreases |lines|
  {
    if lines == [] then Streamed(log, None)
    else
      var error := SetRowError(log, lines[0]);
      if error.Some? then Streamed(log, error) else Stream(log + [lines[0]], lines[1..])
  }

  lemma {:induction false} StreamSplit(log: seq<Line>, a: seq<Line>, b: seq<Line>)
    ensures var first := Stream(log, a);
            Stream(log, a + b) == if first.error.Some? then first else Stream(first.log, b)
    decreases |a|
  {
    if a == [] {
      assert a + b == b;
    } else if SetRowError(log, a[0]).None? {
      StreamSplit(log + [a[0]], a[1..], b);
      assert (a + b)[1..] == a[1..] + b;
    }
  }

  lemma StreamOne(log: seq<Line>, line: Line)
    ensures Stream(log, [line]) ==
            if SetRowError(log, line).Some? then Streamed(log, SetRowError(log, line)) else Streamed(log + [line], None)
  {
    assert [line][1..] == [];
  }

  lemma {:induction false} StreamKeepsAscending(log: seq<Line>, lines: seq<Line>)
    requires Ascending(log)
    ensures Ascending(Stream(log, lines).log)
    decreases |lines|
  {
    if lines != [] && SetRowError(log, lines[0]).None? {
      StreamKeepsAscending(log + [lines[0]], lines[1..]);
    }
  }

  predicate AllStreamFit(lines: seq<Line>) {
    forall i | 0 <= i < |lines| :: StreamFits(lines[i])
  }

  lemma StreamFitFirst(lines: seq<Line>)
    requires lines != []
    ensures AllStreamFit(lines) <==> StreamFits(lines[0]) && AllStreamFit(lines[1..])
    ensures Ascending(lines) ==> Ascending(lines[1..]) && (|lines| > 1 ==> lines[0].row < lines[1..][0].row)
  {
    if StreamFits(lines[0]) && AllStreamFit(lines[1..]) {
      forall i | 0 <= i < |lines| ensures StreamFits(lines[i]) {
        if i > 0 { assert lines[1..][i - 1] == lines[i]; }
      }
    }
  }

  /** Ascending lines are streamed whole exactly when they start below the last row and fit. */
  lemma {:induction false} StreamsExactly(log: seq<Line>, lines: seq<Line>)
    requires Ascending(lines)
    ensures Stream(log, lines).error.None? <==>
            (lines != [] ==> lines[0].row > LastRow(log)) && AllStreamFit(lines)
    ensures Stream(log, lines).error.None? ==> Stream(log, lines).log == log + lines
    decreases |lines|
  {
    if lines != [] {
      StreamFitFirst(lines);
      StreamsExactly(log + [lines[0]], lines[1..]);
      assert log + [lines[0]] + lines[1..] == log + lines;
    }
  }

  class StreamWriter {
    var log: seq<Line>
    var lastRow: int

    ghost predicate Valid()
      reads this
    {
      Ascending(log) && lastRow == LastRow(log)
    }

    constructor ()
      ensures Valid() && log == []
    {
      log, lastRow := [], 0;
    }

    method SetRow(col: int, row: int, values: seq<CellValue>) returns (error: Option<Error>)
      requires Valid()
      modifies this
      ensures Valid() && error == SetRowError(old(log), Line(col, row, values))
      ensures log == if error.None? then old(log) + [Line(col, row, values)] else old(log)
    {
      if row <= lastRow {
        return Some(NotAscending);
      }
      if !StreamFits(Line(col, row, values)) {
        return Some(OutOfBounds);
      }
      assert forall i | 0 <= i < |log| :: log[i].row <= lastRow;
      log := log + [Line(col, row, values)];
      lastRow := row;
      return None;
    }
  }
}
