/** The workbook writer itself: the loops that write frames, and the two books it keeps so that a
    sheet is either streamed or written normally. */
module ExcelWriter {
  import opened Wrappers
  import opened Text
  import opened ExcelSheets
  import opened ExcelReport

  // ---- Layout ----

  method ValuesOfRow(f: Frame, i: nat) returns (values: seq<CellValue>)
    ensures values == RowValues(f, i)
  {
    values := [];
    for j := 0 to |f.fields|
      invariant values == RowValues(f, i)[..j]
    {
      values := values + [if i < |f.fields[j].cells| then f.fields[j].cells[i] else Empty];
    }
  }

  method TitlesOf(f: Frame) returns (titles: seq<CellValue>)
    ensures titles == Titles(f)
  {
    titles := [];
    for j := 0 to |f.fields|
      invariant titles == Titles(f)[..j]
    {
      titles := titles + [Title(f.fields[j].name)];
    }
  }

  method LayOutFrame(f: Frame, header: bool, col: int, row: int) returns (lines: seq<Line>, stats: Stats)
    requires f.fields != []
    ensures lines == FrameLines(f, header, col, row) && |lines| == LineCount(f, header)
    ensures stats == FrameStats(f, header)
  {
    lines, stats := [], Stats(0, 0, 1);
    var next := row;
    if header {
      var titles := TitlesOf(f);
      lines, next := [Line(col, row, titles)], row + 1;
      stats := Stats(1, |titles|, 1);
      assert CellCount(1, |titles|) == CellCount(0, |titles|) + |titles|;
    }
    ghost var before := lines;
    assert before + seq(0, j => Line(col, row, [])) == before;
    for i := 0 to |f.fields[0].cells|
      invariant next == row + |before| + i && |before| == (if header then 1 else 0)
      invariant lines == before + seq(i, j requires 0 <= j < i => Line(col, row + |before| + j, RowValues(f, j)))
      invariant stats == LineStats(|before| + i, |f.fields|)
    {
      var values := ValuesOfRow(f, i);
      lines := lines + [Line(col, next, values)];
      stats := Stats(stats.rows + 1, stats.cells + |values|, 1);
      next := next + 1;
    }
  }

  method PlaceFrame(before: Placed, f: Frame, first: bool, header: bool, col: int)
    returns (after: Placed, stats: Stats)
    ensures after == Place(before, f, first, header, col) && stats == FrameStats(f, header)
  {
    if |f.fields| == 0 {
      return before, Stats(0, 0, 0);
    }
    var cursor := before.cursor;
    if !first {
      cursor := cursor + 1;
    }
    var lines;
    lines, stats := LayOutFrame(f, header, col, cursor);
    after := Placed(before.lines + lines, cursor + |lines|);
  }

  method LayOut(frames: seq<Frame>, header: bool, col: int, row: int) returns (lines: seq<Line>, stats: Stats)
    ensures lines == Layout(frames, header, col, row) && stats == StatsOf(frames, header)
  {
    var placed := Placed([], row);
    stats := Stats(0, 0, 0);
    for k := 0 to |frames|
      invariant placed == LayoutFirst(frames, k, header, col, row) && stats == StatsFirst(frames, k, header)
    {
      var frameStats;
      placed, frameStats := PlaceFrame(placed, frames[k], k == 0, header, col);
      stats := AddStats(stats, frameStats);
    }
    lines := placed.lines;
  }

  // ---- Normal sheets ----

  /** `None` when a line falls off the sheet. */
  method WriteLines(grid: Grid, lines: seq<Line>, cellByCell: bool) returns (r: Option<Grid>)
    requires forall i | 0 <= i < |lines| :: lines[i].col >= 1 && lines[i].row >= 1
    ensures r == if AllFit(lines) then Some(Painted(grid, lines)) else None
  {
    var g := grid;
    for n := 0 to |lines|
      invariant AllFit(lines[..n]) && g == Painted(grid, lines[..n])
    {
      var next := SetRow(g, lines[n], cellByCell);
      if next.None? {
        return None;
      }
      PaintedNext(grid, lines[..n], lines[n]);
      assert lines[..n + 1] == lines[..n] + [lines[n]];
      g := next.value;
    }
    assert lines[..|lines|] == lines;
    return Some(g);
  }

  /** The rows of the range are overwritten with empty ones. */
  method ClearCells(grid: Grid, c: ClearRange) returns (g: Grid)
    requires c.Clear?
    ensures g == Cleared(grid, c)
  {
    g := grid;
    var nothing := seq(c.width, j => Empty);
    for i := 0 to c.height
      invariant g == Cleared(grid, c.(height := i))
    {
      ClearOneMore(grid, c, i, g, nothing);
      g := PutValues(g, c.col, c.row + i, nothing);
    }
  }

  lemma ClearOneMore(grid: Grid, c: ClearRange, i: nat, g: Grid, nothing: seq<CellValue>)
    requires c.Clear? && g == Cleared(grid, c.(height := i)) && nothing == seq(c.width, j => Empty)
    ensures PutValues(g, c.col, c.row + i, nothing) == Cleared(grid, c.(height := i + 1))
  {
    var after, wanted := PutValues(g, c.col, c.row + i, nothing), Cleared(grid, c.(height := i + 1));
    forall p: (int, int)
      ensures p in after <==> p in wanted
      ensures p in wanted ==> p in after && after[p] == wanted[p]
    {
      PutValuesAt(g, Line(c.col, c.row + i, nothing), p.0, p.1);
    }
  }

  /** What a binding leaves of a grid: its clear range is emptied, then its lines are written. */
  method PaintBinding(grid: Grid, b: Binding, frames: seq<Frame>, cellByCell: bool)
    returns (error: Option<Error>, painted: Grid, stats: Stats)
    requires b.cell.At?
    ensures error == if b.clear.Malformed? || b.clear.Unlocatable? then Some(BadClearRange)
                     else if AllFit(LinesOf(b, frames)) then None else Some(OutOfBounds)
    ensures error.None? ==> painted == Painted(Cleared(grid, b.clear), LinesOf(b, frames))
    ensures error.None? ==> stats == StatsOf(frames, HeaderOf(b))
  {
    painted, stats := grid, Stats(0, 0, 0);
    if b.clear.Malformed? || b.clear.Unlocatable? {
      return Some(BadClearRange), painted, stats;
    }
    if b.clear.Clear? {
      painted := ClearCells(grid, b.clear);
    }
    var lines;
    lines, stats := LayOut(frames, HeaderOf(b), b.cell.col, b.cell.row);
    LayoutAscends(frames, |frames|, HeaderOf(b), b.cell.col, b.cell.row);
    var written := WriteLines(painted, lines, cellByCell);
    if written.None? {
      return Some(OutOfBounds), painted, stats;
    }
    return None, written.value, stats;
  }

  // ---- Streamed sheets ----

  lemma StreamStep(before: seq<Line>, lines: seq<Line>, n: nat, log: seq<Line>)
    requires n < |lines| && Stream(before, lines[..n]) == Streamed(log, None)
    ensures var error := SetRowError(log, lines[n]);
            if error.Some? then Stream(before, lines) == Streamed(log, error)
            else Stream(before, lines[..n + 1]) == Streamed(log + [lines[n]], None)
  {
    assert lines[..n + 1] == lines[..n] + [lines[n]];
    StreamSplit(before, lines[..n], [lines[n]]);
    StreamOne(log, lines[n]);
    assert lines == lines[..n + 1] + lines[n + 1..];
    StreamSplit(before, lines[..n + 1], lines[n + 1..]);
  }

  /** Row by row, up to the first that is refused. */
  method StreamLines(stream: StreamWriter, lines: seq<Line>) returns (error: Option<Error>)
    requires stream.Valid()
    modifies stream
    ensures stream.Valid()
    ensures Streamed(stream.log, error) == Stream(old(stream.log), lines)
  {
    for n := 0 to |lines|
      invariant stream.Valid()
      invariant Stream(old(stream.log), lines[..n]) == Streamed(stream.log, None)
    {
      StreamStep(old(stream.log), lines, n, stream.log);
      error := stream.SetRow(lines[n].col, lines[n].row, lines[n].values);
      if error.Some? {
        return;
      }
    }
    assert lines[..|lines|] == lines;
    return None;
  }

  // ---- The writer ----

  class WorkbookWriter {
    var streams: map<string, StreamWriter>
    var normal: set<string>
    var grids: map<string, Grid>

    ghost predicate Valid()
      reads this, streams.Values
    {
      && (forall k | k in streams :: streams[k].Valid())
      && forall j, k | j in streams && k in streams && j != k :: streams[j] != streams[k]
    }

    ghost function Contents(): State
      reads this, streams.Values
    {
      State(normal, Logs(), grids)
    }

    ghost function Logs(): map<string, seq<Line>>
      reads this, streams.Values
    {
      map k | k in streams :: streams[k].log
    }

    constructor (template: map<string, Grid>)
      ensures Valid() && Contents() == Opened(template)
    {
      streams, normal, grids := map[], {}, template;
    }

    /** The stream of a sheet, made when first asked for; `None` for a sheet written normally. */
    method StreamFor(sheet: string) returns (stream: Option<StreamWriter>)
      requires Valid()
      modifies this`streams
      ensures Valid() && (stream.None? <==> sheet in normal)
      ensures stream.None? ==> streams == old(streams)
      ensures stream.Some? ==>
                && sheet in streams && streams == old(streams)[sheet := stream.value]
                && (if sheet in old(streams) then stream.value == old(streams)[sheet]
                    else fresh(stream.value) && stream.value.log == [])
    {
      if sheet in normal {
        return None;
      }
      if sheet in streams {
        return Some(streams[sheet]);
      }
      var writer := new StreamWriter();
      streams := streams[sheet := writer];
      return Some(writer);
    }

    method MarkNormalSheet(sheet: string) returns (ok: bool)
      modifies this`normal
      ensures ok == (sheet !in streams)
      ensures normal == if ok then old(normal) + {sheet} else old(normal)
    {
      if sheet in streams {
        return false;
      }
      normal := normal + {sheet};
      return true;
    }

    method EnsureSheet(sheet: string)
      modifies this`grids
      ensures grids == old(grids)[Lower(sheet) :=
                      if Lower(sheet) in old(grids) then old(grids)[Lower(sheet)] else map[]]
    {
      if Lower(sheet) !in grids {
        grids := grids[Lower(sheet) := map[]];
      }
    }

    /** After a failure the report is given up, so nothing is said of the workbook then. */
    method WriteStreamed(b: Binding, frames: seq<Frame>) returns (error: Option<Error>, stats: Stats)
      requires Valid() && b.cell.At?
      modifies this`streams, streams.Values
      ensures Valid() && normal == old(normal) && grids == old(grids)
      ensures var out := WriteStream(old(Contents()), b, frames);
              if error.Some? then out == Failed(error.value) else out == Written(Contents(), stats)
      ensures fresh(streams.Values - old(streams.Values))
    {
      var sheet := Trim(b.sheet);
      var lines;
      lines, stats := LayOut(frames, HeaderOf(b), b.cell.col, b.cell.row);
      error := StreamTo(sheet, lines);
    }

    method StreamTo(sheet: string, lines: seq<Line>) returns (error: Option<Error>)
      requires Valid()
      modifies this`streams, streams.Values
      ensures Valid() && normal == old(normal) && grids == old(grids)
      ensures fresh(streams.Values - old(streams.Values))
      ensures sheet in normal ==> error == Some(MixedModes)
      ensures sheet !in normal ==>
                && sheet in streams && Logs() == old(Logs())[sheet := streams[sheet].log]
                && Streamed(streams[sheet].log, error) ==
                   Stream(if sheet in old(streams) then old(Logs())[sheet] else [], lines)
    {
      var stream := StreamFor(sheet);
      if stream.None? {
        return Some(MixedModes);
      }
      error := StreamLines(stream.value, lines);
      OthersUnchanged(sheet);
    }

    /** When only the stream of `sheet` was written, the other logs are what they were. */
    twostate lemma OthersUnchanged(sheet: string)
      requires sheet in streams && streams.Keys == old(streams).Keys + {sheet}
      requires forall k | k in old(streams) && k != sheet ::
                 streams[k] == old(streams)[k] && streams[k].log == old(streams[k].log)
      ensures Logs() == old(Logs())[sheet := streams[sheet].log]
    {
    }

    method WriteNormally(b: Binding, frames: seq<Frame>, cellByCell: bool) returns (error: Option<Error>, stats: Stats)
      requires b.cell.At? && Lower(Trim(b.sheet)) in grids
      modifies this`normal, this`grids
      ensures var out := WriteNormal(old(Contents()), b, frames);
              if error.Some? then out == Failed(error.value) else out == Written(Contents(), stats)
    {
      var sheet := Trim(b.sheet);
      var marked := MarkNormalSheet(sheet);
      if !marked {
        return Some(MixedModes), Stats(0, 0, 0);
      }
      var grid;
      error, grid, stats := PaintBinding(grids[Lower(sheet)], b, frames, cellByCell);
      if error.None? {
        grids := grids[Lower(sheet) := grid];
      }
    }

    method Write(r: Report, b: Binding, frames: seq<Frame>) returns (error: Option<Error>, stats: Stats)
      requires Valid()
      modifies this, streams.Values
      ensures Valid() && fresh(streams.Values - old(streams.Values))
      ensures var out := WriteBinding(old(Contents()), r, b, frames);
              if error.Some? then out == Failed(error.value) else out == Written(Contents(), stats)
    {
      if |frames| == 0 {
        return None, Stats(0, 0, 0);
      }
      var sheet := Trim(b.sheet);
      if sheet == "" || b.cell.NoCell? {
        return Some(Incomplete), Stats(0, 0, 0);
      }
      if !b.nameable {
        return Some(BadSheet), Stats(0, 0, 0);
      }
      if b.cell.BadCell? {
        return Some(BadCellName), Stats(0, 0, 0);
      }
      EnsureSheet(sheet);
      var mode := BindingMode(r, b);
      if mode.None? {
        return Some(BadMode), Stats(0, 0, 0);
      }
      assert Contents() == WithSheet(old(Contents()), sheet);
      if mode.value.Streaming? {
        error, stats := WriteStreamed(b, frames);
      } else {
        error, stats := WriteNormally(b, frames, mode.value.Cells?);
      }
    }

    /** All bindings of a report, each with what its query returned. */
    method WriteAll(r: Report, results: seq<seq<Frame>>) returns (error: Option<Error>, stats: Stats)
      requires Valid() && |results| == |r.bindings|
      modifies this, streams.Values
      ensures Valid()
      ensures var out := WriteReport(old(Contents()), r, results);
              if error.Some? then out == Failed(error.value) else out == Written(Contents(), stats)
    {
      stats := Stats(0, 0, 0);
      ghost var before := Contents();
      for i := 0 to |r.bindings|
        invariant Valid() && fresh(streams.Values - old(streams.Values))
        invariant WriteFirst(before, r, results, i) == Written(Contents(), stats)
      {
        var failed, more := Write(r, r.bindings[i], results[i]);
        if failed.Some? {
          FailureIsFinal(before, r, results, i + 1, |results|);
          return failed, Stats(0, 0, 0);
        }
        stats := AddStats(stats, more);
      }
      return None, stats;
    }
  }
}
