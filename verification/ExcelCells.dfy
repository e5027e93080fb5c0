/** Which cell of which frame is on a sheet where, in all three modes. */
module ExcelCells {
  import opened Wrappers
  import opened Text
  import opened ExcelSheets
  import opened ExcelReport

  // ---- Where a frame starts ----

  /** The rows that a frame takes: one for the titles, if they are wanted, and one for each value of
      its first field. */
  function Height(f: Frame, header: bool): nat
    requires f.fields != []
  {
    |f.fields[0].cells| + if header then 1 else 0
  }

  /** The rows of the first `k` frames, and an empty one before each of them but the very first of
      the list; frames without fields count for nothing. */
  function RowsAbove(frames: seq<Frame>, k: nat, header: bool): nat
    requires k <= |frames|
  {
    if k == 0 then 0
    else
      RowsAbove(frames, k - 1, header) +
      if frames[k - 1].fields == [] then 0 else Height(frames[k - 1], header) + if k > 1 then 1 else 0
  }

  /** The first row of frame `k`. */
  function Top(frames: seq<Frame>, k: nat, header: bool, row: int): int
    requires k <= |frames|
  {
    row + RowsAbove(frames, k, header) + if k > 0 then 1 else 0
  }

  function ValueRow(frames: seq<Frame>, k: nat, header: bool, row: int, i: nat): int
    requires k <= |frames|
  {
    Top(frames, k, header, row) + (if header then 1 else 0) + i
  }

  // ---- What is where ----

  predicate Reads(grid: Grid, col: int, row: int, v: CellValue) {
    if v.Empty? then (col, row) !in grid else (col, row) in grid && grid[(col, row)] == v
  }

  predicate SameAt(grid: Grid, other: Grid, col: int, row: int) {
    && ((col, row) in grid <==> (col, row) in other)
    && ((col, row) in grid ==> grid[(col, row)] == other[(col, row)])
  }

  /** Frame `k` has a field `j` and `i` rows at least. */
  predicate HasCell(frames: seq<Frame>, k: int, i: int, j: int) {
    0 <= k < |frames| && 0 <= j < |frames[k].fields| && 0 <= i < |frames[k].fields[0].cells|
  }

  predicate HasTitle(frames: seq<Frame>, k: int, j: int) {
    0 <= k < |frames| && 0 <= j < |frames[k].fields|
  }

  /** The value of field `j` in row `i`: nothing where the field is shorter than the first one. */
  function CellIn(frames: seq<Frame>, k: nat, i: nat, j: nat): CellValue
    requires HasCell(frames, k, i, j)
  {
    if i < |frames[k].fields[j].cells| then frames[k].fields[j].cells[i] else Empty
  }

  /** The position belongs to a title or a value of one of the frames. */
  ghost predicate Taken(frames: seq<Frame>, header: bool, col: int, row: int, c: int, r: int) {
    || (header && exists k, j :: HasTitle(frames, k, j) && c == col + j && r == Top(frames, k, header, row))
    || exists k, i, j :: HasCell(frames, k, i, j) && c == col + j && r == ValueRow(frames, k, header, row, i)
  }

  /** The frames are on the sheet, each value at its place. */
  ghost predicate FramesOn(grid: Grid, frames: seq<Frame>, header: bool, col: int, row: int) {
    && (header ==> forall k, j | HasTitle(frames, k, j) ::
          Reads(grid, col + j, Top(frames, k, header, row), Title(frames[k].fields[j].name)))
    && forall k, i, j | HasCell(frames, k, i, j) ::
         Reads(grid, col + j, ValueRow(frames, k, header, row, i), CellIn(frames, k, i, j))
  }

  /** Everywhere else the sheet is as it was. */
  ghost predicate OthersSame(grid: Grid, before: Grid, frames: seq<Frame>, header: bool, col: int, row: int) {
    forall c, r | !Taken(frames, header, col, row, c, r) :: SameAt(grid, before, c, r)
  }

  // ---- The lines of a layout ----

  function LinesBefore(frames: seq<Frame>, k: nat, header: bool): nat
    requires k <= |frames|
  {
    if k == 0 then 0
    else LinesBefore(frames, k - 1, header) + if frames[k - 1].fields == [] then 0 else Height(frames[k - 1], header)
  }

  lemma {:induction false} LayoutSize(frames: seq<Frame>, n: nat, header: bool, col: int, row: int)
    requires n <= |frames|
    ensures var placed := LayoutFirst(frames, n, header, col, row);
            |placed.lines| == LinesBefore(frames, n, header) && placed.cursor == row + RowsAbove(frames, n, header)
    decreases n
  {
    if n > 0 {
      LayoutSize(frames, n - 1, header, col, row);
    }
  }

  /** Line `t` of frame `k` among the lines of a layout. */
  predicate HasLine(lines: seq<Line>, at: nat, f: Frame, header: bool, col: int, row: int, t: nat)
    requires f.fields != [] && t < Height(f, header)
  {
    at < |lines| && lines[at] == FrameLines(f, header, col, row)[t]
  }

  lemma LineStays(lines: seq<Line>, more: seq<Line>, at: nat, f: Frame, header: bool, col: int, row: int, t: nat)
    requires lines <= more && f.fields != [] && t < Height(f, header) && HasLine(lines, at, f, header, col, row, t)
    ensures HasLine(more, at, f, header, col, row, t)
  {
  }

  lemma LastFrameLine(frames: seq<Frame>, n: nat, header: bool, col: int, row: int, t: nat)
    requires 0 < n <= |frames| && frames[n - 1].fields != [] && t < Height(frames[n - 1], header)
    ensures HasLine(LayoutFirst(frames, n, header, col, row).lines, LinesBefore(frames, n - 1, header) + t,
                    frames[n - 1], header, col, Top(frames, n - 1, header, row), t)
  {
    var before, f := LayoutFirst(frames, n - 1, header, col, row), frames[n - 1];
    LayoutSize(frames, n - 1, header, col, row);
    PlaceAdds(before, f, n == 1, header, col, t);
    NextPlaced(frames, n, header, col, row);
  }

  lemma NextPlaced(frames: seq<Frame>, n: nat, header: bool, col: int, row: int)
    requires 0 < n <= |frames|
    ensures LayoutFirst(frames, n, header, col, row) ==
            Place(LayoutFirst(frames, n - 1, header, col, row), frames[n - 1], n == 1, header, col)
  {
  }

  lemma LayoutGrows(frames: seq<Frame>, n: nat, header: bool, col: int, row: int)
    requires 0 < n <= |frames|
    ensures LayoutFirst(frames, n - 1, header, col, row).lines <= LayoutFirst(frames, n, header, col, row).lines
  {
    PlaceOnlyAdds(LayoutFirst(frames, n - 1, header, col, row), frames[n - 1], n == 1, header, col);
  }

  lemma {:induction false} LayoutLine(frames: seq<Frame>, n: nat, header: bool, col: int, row: int, k: nat, t: nat)
    requires k < n <= |frames| && frames[k].fields != [] && t < Height(frames[k], header)
    ensures HasLine(LayoutFirst(frames, n, header, col, row).lines, LinesBefore(frames, k, header) + t,
                    frames[k], header, col, Top(frames, k, header, row), t)
    decreases n
  {
    if k == n - 1 {
      LastFrameLine(frames, n, header, col, row, t);
    } else {
      LayoutLine(frames, n - 1, header, col, row, k, t);
      LayoutGrows(frames, n, header, col, row);
      LineStays(LayoutFirst(frames, n - 1, header, col, row).lines, LayoutFirst(frames, n, header, col, row).lines,
                LinesBefore(frames, k, header) + t, frames[k], header, col, Top(frames, k, header, row), t);
    }
  }

  lemma PlaceOnlyAdds(before: Placed, f: Frame, first: bool, header: bool, col: int)
    ensures before.lines <= Place(before, f, first, header, col).lines
  {
  }

  lemma PlaceAdds(before: Placed, f: Frame, first: bool, header: bool, col: int, t: nat)
    requires f.fields != [] && t < Height(f, header)
    ensures HasLine(Place(before, f, first, header, col).lines, |before.lines| + t,
                    f, header, col, before.cursor + (if first then 0 else 1), t)
  {
  }

  /** Every line is one of a frame. */
  lemma {:induction false} LineComesFrom(frames: seq<Frame>, n: nat, header: bool, at: nat) returns (k: nat, t: nat)
    requires n <= |frames| && at < LinesBefore(frames, n, header)
    ensures k < n && frames[k].fields != [] && t < Height(frames[k], header) && at == LinesBefore(frames, k, header) + t
    decreases n
  {
    if at < LinesBefore(frames, n - 1, header) {
      k, t := LineComesFrom(frames, n - 1, header, at);
    } else {
      k, t := n - 1, at - LinesBefore(frames, n - 1, header);
    }
  }

  // ---- Painting over what is there ----

  lemma {:induction false} PaintedOver(grid: Grid, lines: seq<Line>, i: nat, col: int)
    requires Ascending(lines) && i < |lines| && lines[i].col <= col < lines[i].col + |lines[i].values|
    ensures Reads(Painted(grid, lines), col, lines[i].row, lines[i].values[col - lines[i].col])
    decreases |lines|
  {
    var n := |lines| - 1;
    PutValuesAt(Painted(grid, lines[..n]), lines[n], col, lines[i].row);
    if i < n {
      PaintedOver(grid, lines[..n], i, col);
    }
  }

  lemma {:induction false} NotPaintedOver(grid: Grid, lines: seq<Line>, col: int, row: int)
    requires forall i | 0 <= i < |lines| :: !Covers(lines[i], col, row)
    ensures SameAt(Painted(grid, lines), grid, col, row)
    decreases |lines|
  {
    if lines != [] {
      var n := |lines| - 1;
      PutValuesAt(Painted(grid, lines[..n]), lines[n], col, row);
      NotPaintedOver(grid, lines[..n], col, row);
    }
  }

  /** The line of a frame's `i`th row, and the value of field `j` in it. */
  lemma ValueInLine(f: Frame, header: bool, col: int, row: int, i: nat, j: nat)
    requires j < |f.fields| && i < |f.fields[0].cells|
    ensures var t, lines := i + (if header then 1 else 0), FrameLines(f, header, col, row);
            && t < |lines| && lines[t].col == col && lines[t].row == row + t && |lines[t].values| == |f.fields|
            && lines[t].values[j] == if i < |f.fields[j].cells| then f.fields[j].cells[i] else Empty
  {
  }

  lemma PaintedValue(grid: Grid, lines: seq<Line>, at: nat, f: Frame, header: bool, col: int, row: int, i: nat, j: nat)
    requires j < |f.fields| && i < |f.fields[0].cells| && Ascending(lines) && at < |lines|
    requires var t, of := i + (if header then 1 else 0), FrameLines(f, header, col, row);
             t < |of| && lines[at] == of[t]
    ensures Reads(Painted(grid, lines), col + j, row + (if header then 1 else 0) + i,
                  if i < |f.fields[j].cells| then f.fields[j].cells[i] else Empty)
  {
    ValueInLine(f, header, col, row, i, j);
    PaintedOver(grid, lines, at, col + j);
  }

  lemma PaintedTitle(grid: Grid, lines: seq<Line>, at: nat, f: Frame, col: int, row: int, j: nat)
    requires j < |f.fields| && Ascending(lines) && at < |lines|
    requires lines[at] == FrameLines(f, true, col, row)[0]
    ensures Reads(Painted(grid, lines), col + j, row, Title(f.fields[j].name))
  {
    PaintedOver(grid, lines, at, col + j);
  }

  /** The place of a frame's line among all lines. */
  lemma LineOfFrame(frames: seq<Frame>, header: bool, col: int, row: int, k: nat, t: nat)
    returns (lines: seq<Line>, at: nat)
    requires k < |frames| && frames[k].fields != [] && t < Height(frames[k], header)
    ensures lines == Layout(frames, header, col, row) && Ascending(lines) && at < |lines|
    ensures var of := FrameLines(frames[k], header, col, Top(frames, k, header, row)); t < |of| && lines[at] == of[t]
  {
    lines, at := Layout(frames, header, col, row), LinesBefore(frames, k, header) + t;
    LayoutAscends(frames, |frames|, header, col, row);
    LayoutLine(frames, |frames|, header, col, row, k, t);
    FrameLinesBelow(frames[k], header, col, Top(frames, k, header, row));
  }

  lemma ValueIsPainted(grid: Grid, frames: seq<Frame>, header: bool, col: int, row: int, k: nat, i: nat, j: nat)
    requires HasCell(frames, k, i, j)
    ensures Reads(Painted(grid, Layout(frames, header, col, row)), col + j, ValueRow(frames, k, header, row, i),
                  CellIn(frames, k, i, j))
  {
    var top := Top(frames, k, header, row);
    var lines, at := LineOfFrame(frames, header, col, row, k, i + if header then 1 else 0);
    PaintedValue(grid, lines, at, frames[k], header, col, top, i, j);
  }

  lemma TitleIsPainted(grid: Grid, frames: seq<Frame>, col: int, row: int, k: nat, j: nat)
    requires HasTitle(frames, k, j)
    ensures Reads(Painted(grid, Layout(frames, true, col, row)), col + j, Top(frames, k, true, row),
                  Title(frames[k].fields[j].name))
  {
    var lines, at := LineOfFrame(frames, true, col, row, k, 0);
    PaintedTitle(grid, lines, at, frames[k], col, Top(frames, k, true, row), j);
  }

  lemma CoveredIsTaken(frames: seq<Frame>, header: bool, col: int, row: int, at: nat, c: int, r: int)
    requires at < |Layout(frames, header, col, row)| && Covers(Layout(frames, header, col, row)[at], c, r)
    ensures Taken(frames, header, col, row, c, r)
  {
    LayoutSize(frames, |frames|, header, col, row);
    var k, t := LineComesFrom(frames, |frames|, header, at);
    LayoutLine(frames, |frames|, header, col, row, k, t);
    FrameLinesBelow(frames[k], header, col, Top(frames, k, header, row));
    if header && t == 0 {
      assert HasTitle(frames, k, c - col);
    } else {
      assert HasCell(frames, k, t - (if header then 1 else 0), c - col);
    }
  }

  lemma LayoutIsPainted(grid: Grid, frames: seq<Frame>, header: bool, col: int, row: int)
    ensures var after := Painted(grid, Layout(frames, header, col, row));
            FramesOn(after, frames, header, col, row) && OthersSame(after, grid, frames, header, col, row)
  {
    var lines := Layout(frames, header, col, row);
    var after := Painted(grid, lines);
    forall k, j | header && HasTitle(frames, k, j)
      ensures Reads(after, col + j, Top(frames, k, header, row), Title(frames[k].fields[j].name))
    {
      TitleIsPainted(grid, frames, col, row, k, j);
    }
    forall k, i, j | HasCell(frames, k, i, j)
      ensures Reads(after, col + j, ValueRow(frames, k, header, row, i), CellIn(frames, k, i, j))
    {
      ValueIsPainted(grid, frames, header, col, row, k, i, j);
    }
    forall c, r | !Taken(frames, header, col, row, c, r) ensures SameAt(after, grid, c, r) {
      forall at | 0 <= at < |lines| ensures !Covers(lines[at], c, r) {
        if Covers(lines[at], c, r) { CoveredIsTaken(frames, header, col, row, at, c, r); }
      }
      NotPaintedOver(grid, lines, c, r);
    }
  }

  // ---- Bindings ----

  /** Titles are written unless the binding says otherwise. */
  predicate TitlesWanted(b: Binding) {
    b.header != Some(false)
  }

  predicate Streamed(r: Report, b: Binding) {
    BindingMode(r, b) == Some(Streaming)
  }

  /** What a clear range leaves. */
  predicate ClearedOnly(grid: Grid, before: Grid, clear: ClearRange) {
    && grid.Keys <= before.Keys
    && forall p | p in before ::
         (p in grid <==> !(clear.Clear? && clear.col <= p.0 < clear.col + clear.width
                            && clear.row <= p.1 < clear.row + clear.height))
         && (p in grid ==> grid[p] == before[p])
  }

  lemma NormalOutcome(s: State, r: Report, b: Binding, frames: seq<Frame>)
    requires frames != [] && !Streamed(r, b) && WriteBinding(s, r, b, frames).Written?
    ensures b.cell.At?
    ensures var s', sheet := WriteBinding(s, r, b, frames).state, Trim(b.sheet);
            && GridOf(s', sheet) == Painted(Cleared(GridOf(s, sheet), b.clear), LinesOf(b, frames))
            && s'.streams == s.streams
            && forall other | Lower(other) != Lower(sheet) :: GridOf(s', other) == GridOf(s, other)
  {
    assert GridOf(WithSheet(s, Trim(b.sheet)), Trim(b.sheet)) == GridOf(s, Trim(b.sheet));
  }

  /** A binding written cell by cell or row by row: its clear range is emptied, then each title and
      each value of its frames is at its place, and nothing else changed on its sheet or another. */
  lemma WrittenCells(s: State, r: Report, b: Binding, frames: seq<Frame>)
    requires frames != [] && !Streamed(r, b) && WriteBinding(s, r, b, frames).Written?
    ensures b.cell.At?
    ensures var s', sheet := WriteBinding(s, r, b, frames).state, Trim(b.sheet);
            && FramesOn(GridOf(s', sheet), frames, TitlesWanted(b), b.cell.col, b.cell.row)
            && (exists cleared ::
                  && ClearedOnly(cleared, GridOf(s, sheet), b.clear)
                  && OthersSame(GridOf(s', sheet), cleared, frames, TitlesWanted(b), b.cell.col, b.cell.row))
            && s'.streams == s.streams
            && forall other | Lower(other) != Lower(sheet) :: GridOf(s', other) == GridOf(s, other)
  {
    var sheet := Trim(b.sheet);
    NormalOutcome(s, r, b, frames);
    var cleared := Cleared(GridOf(s, sheet), b.clear);
    LayoutIsPainted(cleared, frames, HeaderOf(b), b.cell.col, b.cell.row);
    assert ClearedOnly(cleared, GridOf(s, sheet), b.clear);
  }

  lemma {:induction false} WholeStream(log: seq<Line>, lines: seq<Line>)
    requires Stream(log, lines).error.None?
    ensures Stream(log, lines).log == log + lines
    decreases |lines|
  {
    if lines != [] {
      WholeStream(log + [lines[0]], lines[1..]);
      assert log + lines == (log + [lines[0]]) + lines[1..];
    } else {
      assert log + lines == log;
    }
  }

  lemma {:induction false} PaintedInTwo(grid: Grid, a: seq<Line>, b: seq<Line>)
    ensures Painted(grid, a + b) == Painted(Painted(grid, a), b)
    decreases |b|
  {
    if b == [] {
      assert a + b == a;
    } else {
      var n := |b| - 1;
      PaintedInTwo(grid, a, b[..n]);
      assert (a + b)[..|a + b| - 1] == a + b[..n];
    }
  }

  /** A streamed binding: each title and each value of its frames is at its place on what was
      streamed, the rest is what was streamed before, and nothing else changed. */
  lemma StreamedCells(s: State, r: Report, b: Binding, frames: seq<Frame>)
    requires frames != [] && Streamed(r, b) && WriteBinding(s, r, b, frames).Written?
    ensures b.cell.At?
    ensures var s', sheet := WriteBinding(s, r, b, frames).state, Trim(b.sheet);
            var before := Painted(map[], if sheet in s.streams then s.streams[sheet] else []);
            && sheet in s'.streams && s'.streams - {sheet} == s.streams - {sheet} && s'.normal == s.normal
            && FramesOn(Painted(map[], s'.streams[sheet]), frames, TitlesWanted(b), b.cell.col, b.cell.row)
            && OthersSame(Painted(map[], s'.streams[sheet]), before, frames, TitlesWanted(b), b.cell.col, b.cell.row)
  {
    var sheet := Trim(b.sheet);
    var log := if sheet in s.streams then s.streams[sheet] else [];
    StreamedBinding(s, r, b, frames);
    WholeStream(log, LinesOf(b, frames));
    PaintedInTwo(map[], log, LinesOf(b, frames));
    LayoutIsPainted(Painted(map[], log), frames, HeaderOf(b), b.cell.col, b.cell.row);
  }

  // ---- The edge of the sheet ----

  /** All positions that the frames take are on a sheet of 16384 columns and 1048576 rows. */
  ghost predicate OnTheSheet(frames: seq<Frame>, header: bool, col: int, row: int) {
    forall c, r | Taken(frames, header, col, row, c, r) :: c <= 16384 && r <= 1048576
  }

  lemma LineTakes(frames: seq<Frame>, header: bool, col: int, row: int, k: nat, t: nat, j: nat)
    requires HasTitle(frames, k, j) && t < Height(frames[k], header)
    ensures Taken(frames, header, col, row, col + j, Top(frames, k, header, row) + t)
  {
    if header && t == 0 {
      assert HasTitle(frames, k, j);
    } else {
      assert HasCell(frames, k, t - (if header then 1 else 0), j);
    }
  }

  /** A layout fits exactly if every position it takes is on the sheet. */
  lemma FitsExactly(frames: seq<Frame>, header: bool, col: int, row: int)
    ensures AllFit(Layout(frames, header, col, row)) <==> OnTheSheet(frames, header, col, row)
  {
    var lines := Layout(frames, header, col, row);
    LayoutSize(frames, |frames|, header, col, row);
    if OnTheSheet(frames, header, col, row) {
      forall at | 0 <= at < |lines| ensures Fits(lines[at]) {
        LineIsOnSheet(frames, header, col, row, at);
      }
    }
    if AllFit(lines) {
      forall c, r | Taken(frames, header, col, row, c, r) ensures c <= 16384 && r <= 1048576 {
        TakenIsCovered(frames, header, col, row, c, r);
      }
    }
  }

  lemma LineIsOnSheet(frames: seq<Frame>, header: bool, col: int, row: int, at: nat)
    requires at < |Layout(frames, header, col, row)| && OnTheSheet(frames, header, col, row)
    ensures Fits(Layout(frames, header, col, row)[at])
  {
    LayoutSize(frames, |frames|, header, col, row);
    var k, t := LineComesFrom(frames, |frames|, header, at);
    LayoutLine(frames, |frames|, header, col, row, k, t);
    FrameLinesBelow(frames[k], header, col, Top(frames, k, header, row));
    LineTakes(frames, header, col, row, k, t, |frames[k].fields| - 1);
  }

  lemma TakenIsCovered(frames: seq<Frame>, header: bool, col: int, row: int, c: int, r: int)
    requires Taken(frames, header, col, row, c, r) && AllFit(Layout(frames, header, col, row))
    ensures c <= 16384 && r <= 1048576
  {
    var k, t := TakenFrame(frames, header, col, row, c, r);
    var lines, at := LineOfFrame(frames, header, col, row, k, t);
    FrameLinesBelow(frames[k], header, col, Top(frames, k, header, row));
    assert Fits(lines[at]);
  }

  lemma TakenFrame(frames: seq<Frame>, header: bool, col: int, row: int, c: int, r: int) returns (k: nat, t: nat)
    requires Taken(frames, header, col, row, c, r)
    ensures k < |frames| && frames[k].fields != [] && t < Height(frames[k], header)
    ensures r == Top(frames, k, header, row) + t && col <= c < col + |frames[k].fields|
  {
    if header && exists k, j :: HasTitle(frames, k, j) && c == col + j && r == Top(frames, k, header, row) {
      var k', j :| HasTitle(frames, k', j) && c == col + j && r == Top(frames, k', header, row);
      k, t := k', 0;
    } else {
      var k', i, j :| HasCell(frames, k', i, j) && c == col + j && r == ValueRow(frames, k', header, row, i);
      k, t := k', i + if header then 1 else 0;
    }
  }

  /** A binding that is not streamed, and that nothing else is wrong with, is written exactly if its
      frames are on the sheet. */
  lemma WrittenIfOnTheSheet(s: State, r: Report, b: Binding, frames: seq<Frame>)
    requires frames != [] && Locatable(b) && BindingMode(r, b).Some? && !Streamed(r, b)
    requires Trim(b.sheet) !in s.streams && !b.clear.Malformed? && !b.clear.Unlocatable?
    ensures WriteBinding(s, r, b, frames) == Failed(OutOfBounds) || WriteBinding(s, r, b, frames).Written?
    ensures WriteBinding(s, r, b, frames).Written? <==> OnTheSheet(frames, TitlesWanted(b), b.cell.col, b.cell.row)
  {
    NormalBinding(s, r, b, frames);
    FitsExactly(frames, HeaderOf(b), b.cell.col, b.cell.row);
  }

  lemma StreamFitsWhole(frames: seq<Frame>, header: bool, col: int, row: int, at: nat)
    requires at < |Layout(frames, header, col, row)| && OnTheSheet(frames, header, col, row)
    ensures StreamFits(Layout(frames, header, col, row)[at])
  {
    LineIsOnSheet(frames, header, col, row, at);
    LayoutAscends(frames, |frames|, header, col, row);
  }

  lemma ValueFits(line: Line, j: nat)
    requires StreamFits(line) && j < |line.values| && !line.values[j].Empty?
    ensures line.col + j <= 16384 && line.row <= 1048576
  {
  }

  /** What a stream takes is on the sheet: every value, every title and every row. */
  lemma StreamedIsOnTheSheet(frames: seq<Frame>, header: bool, col: int, row: int)
    requires AllStreamFit(Layout(frames, header, col, row))
    ensures forall k, i, j | HasCell(frames, k, i, j) && !CellIn(frames, k, i, j).Empty? ::
              col + j <= 16384 && ValueRow(frames, k, header, row, i) <= 1048576
    ensures header ==> forall k, j | HasTitle(frames, k, j) ::
              col + j <= 16384 && Top(frames, k, header, row) <= 1048576
  {
    forall k: nat, i: nat, j: nat | HasCell(frames, k, i, j) && !CellIn(frames, k, i, j).Empty?
      ensures col + j <= 16384 && ValueRow(frames, k, header, row, i) <= 1048576
    {
      var lines, at := LineOfFrame(frames, header, col, row, k, i + if header then 1 else 0);
      ValueInLine(frames[k], header, col, Top(frames, k, header, row), i, j);
      ValueFits(lines[at], j);
    }
    forall k: nat, j: nat | header && HasTitle(frames, k, j)
      ensures col + j <= 16384 && Top(frames, k, header, row) <= 1048576
    {
      var lines, at := LineOfFrame(frames, true, col, row, k, 0);
      ValueFits(lines[at], j);
    }
  }

  /** And frames that are on the sheet can be streamed. */
  lemma OnTheSheetStreams(frames: seq<Frame>, header: bool, col: int, row: int)
    requires OnTheSheet(frames, header, col, row)
    ensures AllStreamFit(Layout(frames, header, col, row))
  {
    forall at | 0 <= at < |Layout(frames, header, col, row)| ensures StreamFits(Layout(frames, header, col, row)[at]) {
      StreamFitsWhole(frames, header, col, row, at);
    }
  }

  // ---- Statistics ----

  function ValuesIn(lines: seq<Line>): nat {
    if lines == [] then 0 else ValuesIn(lines[..|lines| - 1]) + |lines[|lines| - 1].values|
  }

  function FramesWithFields(frames: seq<Frame>, n: nat): nat
    requires n <= |frames|
  {
    if n == 0 then 0 else FramesWithFields(frames, n - 1) + if frames[n - 1].fields == [] then 0 else 1
  }

  lemma {:induction false} ValuesConcat(a: seq<Line>, b: seq<Line>)
    ensures ValuesIn(a + b) == ValuesIn(a) + ValuesIn(b)
    decreases |b|
  {
    if b == [] {
      assert a + b == a;
    } else {
      ValuesConcat(a, b[..|b| - 1]);
      assert (a + b)[..|a + b| - 1] == a + b[..|b| - 1];
    }
  }

  lemma {:induction false} ValuesOfWidth(lines: seq<Line>, width: nat)
    requires forall i | 0 <= i < |lines| :: |lines[i].values| == width
    ensures ValuesIn(lines) == CellCount(|lines|, width)
    decreases |lines|
  {
    if lines != [] { ValuesOfWidth(lines[..|lines| - 1], width); }
  }

  lemma FrameValues(f: Frame, header: bool, col: int, row: int)
    requires f.fields != []
    ensures ValuesIn(FrameLines(f, header, col, row)) == FrameStats(f, header).cells
  {
    FrameLinesBelow(f, header, col, row);
    ValuesOfWidth(FrameLines(f, header, col, row), |f.fields|);
  }

  /** The statistics count the lines, the values in them, and the frames with fields. */
  lemma {:induction false} StatisticsCount(frames: seq<Frame>, n: nat, header: bool, col: int, row: int)
    requires n <= |frames|
    ensures var stats, lines := StatsFirst(frames, n, header), LayoutFirst(frames, n, header, col, row).lines;
            stats.rows == |lines| && stats.cells == ValuesIn(lines) && stats.frames == FramesWithFields(frames, n)
    decreases n
  {
    LayoutAscends(frames, n, header, col, row);
    if n > 0 {
      StatisticsCount(frames, n - 1, header, col, row);
      PlacedValues(LayoutFirst(frames, n - 1, header, col, row), frames[n - 1], n == 1, header, col);
    }
  }

  lemma PlacedValues(before: Placed, f: Frame, first: bool, header: bool, col: int)
    ensures ValuesIn(Place(before, f, first, header, col).lines) == ValuesIn(before.lines) + FrameStats(f, header).cells
  {
    if f.fields != [] {
      var start := if first then before.cursor else before.cursor + 1;
      FrameValues(f, header, col, start);
      ValuesConcat(before.lines, FrameLines(f, header, col, start));
    }
  }

  // ---- Modes ----

  const STREAM_WORDS := {"stream", "streaming"}
  const ROW_WORDS := {"row", "rows", "bulk"}
  const CELL_WORDS := {"", "auto", "cell", "cells", "legacy"}

  /** A binding's own mode counts unless it is blank; then the report's.  Case and blanks around it
      do not matter. */
  lemma ModesByWord(r: Report, b: Binding)
    ensures var word := Canonical(if Trim(b.writeMode) != "" then b.writeMode else r.writeMode);
            && (BindingMode(r, b) == Some(Streaming) <==> word in STREAM_WORDS)
            && (BindingMode(r, b) == Some(Rows) <==> word in ROW_WORDS)
            && (BindingMode(r, b) == Some(Cells) <==> word in CELL_WORDS)
  {
    var text := if Trim(b.writeMode) != "" then b.writeMode else r.writeMode;
    if Trim(text) == "" {
      BlankIsBlank();
    }
    ModeWordsDiffer();
  }

  lemma BlankIsBlank()
    ensures Canonical("") == ""
  {
    assert Trim("") == "" && Lower("") == "";
  }

  lemma ModeWordsDiffer()
    ensures STREAM_WORDS !! ROW_WORDS && ROW_WORDS !! CELL_WORDS && STREAM_WORDS !! CELL_WORDS
  {
    assert "stream"[0] == 's' && "streaming"[0] == 's' && "row"[0] == 'r' && "rows"[0] == 'r' && "bulk"[0] == 'b';
    assert "auto"[0] == 'a' && "cell"[0] == 'c' && "cells"[0] == 'c' && "legacy"[0] == 'l';
  }

  // ---- What is accepted ----

  /** A binding that validation has nothing against. */
  predicate Flawless(r: Report, b: Binding) {
    && b.hasQuery && Trim(b.sheet) != "" && b.cell.At? && !b.clear.Malformed? && b.maxRows >= 0
    && Canonical(if Trim(b.writeMode) != "" then b.writeMode else r.writeMode) in STREAM_WORDS + ROW_WORDS + CELL_WORDS
  }

  /** A report is accepted exactly if it has bindings, its limits are not negative, its mode is one of
      the words, its template is a workbook, every binding is flawless, and bindings to one sheet,
      however spelled, have one mode. */
  lemma AcceptedExactly(r: Report)
    ensures ReportOk(r) <==>
              && r.bindings != [] && r.maxRows >= 0 && r.maxFileBytes >= 0 && r.timeout >= 0
              && Canonical(r.writeMode) in STREAM_WORDS + ROW_WORDS + CELL_WORDS && r.templateIsXlsx
              && (forall i | 0 <= i < |r.bindings| :: Flawless(r, r.bindings[i]))
              && forall i, j | 0 <= i < j < |r.bindings| ::
                   Lower(Trim(r.bindings[i].sheet)) == Lower(Trim(r.bindings[j].sheet)) ==>
                     BindingMode(r, r.bindings[i]) == BindingMode(r, r.bindings[j])
  {
    forall i | 0 <= i < |r.bindings| ensures BindingOk(r, r.bindings[i]) <==> Flawless(r, r.bindings[i]) {
      ModesByWord(r, r.bindings[i]);
    }
    forall i | 0 <= i < |r.bindings| ensures Entries(r)[i].Some? <==> Flawless(r, r.bindings[i]) {
    }
  }
}
