/** Excel reports: what validation accepts, what the workbook writer does with the bindings of a
    report, and what the one promises about the other. */
module ExcelReport {
  import opened Wrappers
  import opened Text
  import opened ExcelSheets

  // ---- Write modes ----

  datatype Mode = Rows | Cells | Streaming

  function NormalizeMode(mode: string): Option<Mode> {
    var m := Canonical(mode);
    if m in {"", "auto", "cell", "cells", "legacy"} then Some(Cells)
    else if m in {"row", "rows", "bulk"} then Some(Rows)
    else if m in {"stream", "streaming"} then Some(Streaming)
    else None
  }

  function FirstNonEmpty(a: string, b: string): string {
    if Trim(a) != "" then a else if Trim(b) != "" then b else ""
  }

  // ---- Reports ----

  datatype CellRef = NoCell | BadCell | At(col: ColumnNumber, row: RowNumber)

  /** `Malformed` is no range at all; `Unlocatable` passes the static check, which does not look
      at the two cell names. */
  datatype ClearRange = NoClear | Malformed | Unlocatable
    | Clear(col: ColumnNumber, row: RowNumber, width: nat, height: nat)

  /** `hasQuery`: a query text, refID or id is given; `nameable`: the workbook can have a sheet of
      that name. */
  datatype Binding = Binding(
    sheet: string, cell: CellRef, clear: ClearRange, header: Option<bool>, writeMode: string,
    maxRows: int, hasQuery: bool, nameable: bool)

  datatype Report = Report(
    id: string, writeMode: string, maxRows: int, maxFileBytes: int, timeout: int, templateIsXlsx: bool,
    bindings: seq<Binding>)

  function BindingMode(r: Report, b: Binding): Option<Mode> {
    NormalizeMode(FirstNonEmpty(b.writeMode, r.writeMode))
  }

  // ---- Validation ----

  function SheetKey(b: Binding): string {
    Lower(Trim(b.sheet))
  }

  predicate BindingOk(r: Report, b: Binding) {
    && b.hasQuery && Trim(b.sheet) != "" && b.cell.At? && !b.clear.Malformed? && b.maxRows >= 0
    && BindingMode(r, b).Some?
  }

  /** What validation makes of each binding: `None` if it is not acceptable, else the key of its
      sheet and its mode. */
  function Entries(r: Report): seq<Option<(string, Mode)>> {
    seq(|r.bindings|, i requires 0 <= i < |r.bindings| =>
      var b := r.bindings[i];
      if BindingOk(r, b) then Some((SheetKey(b), BindingMode(r, b).value)) else None)
  }

  predicate OneModePerKey(entries: seq<Option<(string, Mode)>>) {
    && (forall i | 0 <= i < |entries| :: entries[i].Some?)
    && forall i, j | 0 <= i < j < |entries| && entries[i].value.0 == entries[j].value.0 ::
         entries[i].value.1 == entries[j].value.1
  }

  /** Every binding is acceptable and no two give one sheet different modes. */
  predicate BindingsOk(r: Report) {
    OneModePerKey(Entries(r))
  }

  predicate ReportOk(r: Report) {
    && r.bindings != [] && r.maxRows >= 0 && r.maxFileBytes >= 0 && r.timeout >= 0
    && NormalizeMode(r.writeMode).Some? && r.templateIsXlsx
    && BindingsOk(r)
  }

  predicate CatalogOk(reports: seq<Report>) {
    && (forall i | 0 <= i < |reports| :: Trim(reports[i].id) != "" && ReportOk(reports[i]))
    && forall i, j | 0 <= i < j < |reports| :: Trim(reports[i].id) != Trim(reports[j].id)
  }

  /** The modes seen so far: each key has the mode of every binding of that key. */
  ghost predicate ModesSeen(entries: seq<Option<(string, Mode)>>, seen: map<string, Mode>) {
    && (forall i | 0 <= i < |entries| ::
          entries[i].Some? && entries[i].value.0 in seen && seen[entries[i].value.0] == entries[i].value.1)
    && forall k | k in seen :: Some((k, seen[k])) in entries
  }

  lemma SeenNext(entries: seq<Option<(string, Mode)>>, i: nat, seen: map<string, Mode>)
    requires i < |entries| && ModesSeen(entries[..i], seen) && entries[i].Some?
    requires var (key, mode) := entries[i].value; key in seen ==> seen[key] == mode
    ensures ModesSeen(entries[..i + 1], seen[entries[i].value.0 := entries[i].value.1])
  {
    var (key, mode) := entries[i].value;
    assert entries[..i + 1] == entries[..i] + [entries[i]];
    var seen' := seen[key := mode];
    forall k | k in seen' ensures Some((k, seen'[k])) in entries[..i + 1] {
      assert entries[..i + 1][i] == Some((key, mode));
    }
  }

  lemma SeenMeansOneMode(entries: seq<Option<(string, Mode)>>, seen: map<string, Mode>)
    requires ModesSeen(entries, seen)
    ensures OneModePerKey(entries)
  {
  }

  lemma SeenClash(entries: seq<Option<(string, Mode)>>, seen: map<string, Mode>, n: nat)
    requires n < |entries| && ModesSeen(entries[..n], seen) && entries[n].Some?
    requires var (key, mode) := entries[n].value; key in seen && seen[key] != mode
    ensures !OneModePerKey(entries)
  {
    var key := entries[n].value.0;
    var j :| 0 <= j < n && entries[..n][j] == Some((key, seen[key]));
    assert entries[j] == Some((key, seen[key]));
  }

  method ValidateReport(r: Report) returns (ok: bool)
    ensures ok <==> ReportOk(r)
  {
    if |r.bindings| == 0 || r.maxRows < 0 || r.maxFileBytes < 0 || r.timeout < 0 {
      return false;
    }
    if NormalizeMode(r.writeMode).None? || !r.templateIsXlsx {
      return false;
    }
    ok := ValidateBindings(r);
  }

  /** The check of one binding, and the mode it gives its sheet. */
  method ValidateBinding(r: Report, i: nat) returns (entry: Option<(string, Mode)>)
    requires i < |r.bindings|
    ensures entry == Entries(r)[i]
  {
    var b := r.bindings[i];
    return if BindingOk(r, b) then Some((SheetKey(b), BindingMode(r, b).value)) else None;
  }

  method ValidateBindings(r: Report) returns (ok: bool)
    ensures ok <==> BindingsOk(r)
  {
    ghost var entries := Entries(r);
    var seen: map<string, Mode> := map[];
    for i := 0 to |r.bindings|
      invariant ModesSeen(entries[..i], seen)
    {
      var entry := ValidateBinding(r, i);
      if entry.None? {
        return false;
      }
      var (key, mode) := entry.value;
      if key in seen && seen[key] != mode {
        SeenClash(entries, seen, i);
        return false;
      }
      SeenNext(entries, i, seen);
      seen := seen[key := mode];
    }
    assert entries[..|entries|] == entries;
    SeenMeansOneMode(entries, seen);
    return true;
  }

  method ValidateCatalog(reports: seq<Report>) returns (ok: bool)
    ensures ok <==> CatalogOk(reports)
  {
    var seen: set<string> := {};
    for i := 0 to |reports|
      invariant CatalogOk(reports[..i])
      invariant seen == set j | 0 <= j < i :: Trim(reports[j].id)
    {
      var id := Trim(reports[i].id);
      var accepted := ValidateReport(reports[i]);
      if id == "" || id in seen || !accepted {
        return false;
      }
      seen := seen + {id};
      assert reports[..i + 1] == reports[..i] + [reports[i]];
    }
    assert reports[..|reports|] == reports;
    return true;
  }

  // ---- Writing ----

  /** `grids` are the sheets of the workbook, found regardless of case; the writer keeps its own
      two books under the trimmed sheet names as they are given. */
  datatype State = State(normal: set<string>, streams: map<string, seq<Line>>, grids: map<string, Grid>)

  datatype Outcome = Written(state: State, stats: Stats) | Failed(error: Error)

  function GridOf(s: State, sheet: string): Grid {
    if Lower(sheet) in s.grids then s.grids[Lower(sheet)] else map[]
  }

  function WithSheet(s: State, sheet: string): State {
    s.(grids := s.grids[Lower(sheet) := GridOf(s, sheet)])
  }

  function Cleared(grid: Grid, c: ClearRange): Grid {
    if c.Clear? then
      map p | p in grid && !(c.col <= p.0 < c.col + c.width && c.row <= p.1 < c.row + c.height) :: grid[p]
    else grid
  }

  function HeaderOf(b: Binding): bool {
    b.header.None? || b.header.value
  }

  function LinesOf(b: Binding, frames: seq<Frame>): seq<Line>
    requires b.cell.At?
  {
    Layout(frames, HeaderOf(b), b.cell.col, b.cell.row)
  }

  function WriteStream(s: State, b: Binding, frames: seq<Frame>): Outcome
    requires b.cell.At?
  {
    var sheet := Trim(b.sheet);
    if sheet in s.normal then Failed(MixedModes)
    else
      var log := if sheet in s.streams then s.streams[sheet] else [];
      var done := Stream(log, LinesOf(b, frames));
      if done.error.Some? then Failed(done.error.value)
      else Written(s.(streams := s.streams[sheet := done.log]), StatsOf(frames, HeaderOf(b)))
  }

  function WriteNormal(s: State, b: Binding, frames: seq<Frame>): Outcome
    requires b.cell.At?
  {
    var sheet := Trim(b.sheet);
    if sheet in s.streams then Failed(MixedModes)
    else if b.clear.Malformed? || b.clear.Unlocatable? then Failed(BadClearRange)
    else if !AllFit(LinesOf(b, frames)) then Failed(OutOfBounds)
    else
      var grid := Painted(Cleared(GridOf(s, sheet), b.clear), LinesOf(b, frames));
      Written(s.(normal := s.normal + {sheet}, grids := s.grids[Lower(sheet) := grid]), StatsOf(frames, HeaderOf(b)))
  }

  function WriteBinding(s: State, r: Report, b: Binding, frames: seq<Frame>): Outcome {
    if frames == [] then Written(s, Stats(0, 0, 0))
    else if Trim(b.sheet) == "" || b.cell.NoCell? then Failed(Incomplete)
    else if !b.nameable then Failed(BadSheet)
    else if b.cell.BadCell? then Failed(BadCellName)
    else
      var s' := WithSheet(s, Trim(b.sheet));
      match BindingMode(r, b)
      case None => Failed(BadMode)
      case Some(Streaming) => WriteStream(s', b, frames)
      case Some(_) => WriteNormal(s', b, frames)
  }

  /** The first `n` bindings of a report in order, each with what its query returned, up to the
      first failure. */
  function WriteFirst(s: State, r: Report, results: seq<seq<Frame>>, n: nat): Outcome
    requires n <= |r.bindings| == |results|
  {
    if n == 0 then Written(s, Stats(0, 0, 0))
    else
      var before := WriteFirst(s, r, results, n - 1);
      if before.Failed? then before
      else
        var last := WriteBinding(before.state, r, r.bindings[n - 1], results[n - 1]);
        if last.Failed? then last else Written(last.state, AddStats(before.stats, last.stats))
  }

  function WriteReport(s: State, r: Report, results: seq<seq<Frame>>): Outcome
    requires |r.bindings| == |results|
  {
    WriteFirst(s, r, results, |results|)
  }

  /** A writer on a new workbook, or on a template that has sheets already. */
  function Opened(template: map<string, Grid>): State {
    State({}, map[], template)
  }

  // ---- Every run ----

  predicate Locatable(b: Binding) {
    b.nameable && Trim(b.sheet) != "" && b.cell.At?
  }

  lemma StreamedBinding(s: State, r: Report, b: Binding, frames: seq<Frame>)
    requires frames != [] && BindingMode(r, b) == Some(Streaming)
    ensures if Locatable(b) then WriteBinding(s, r, b, frames) == WriteStream(WithSheet(s, Trim(b.sheet)), b, frames)
            else WriteBinding(s, r, b, frames).Failed?
  {
  }

  lemma NormalBinding(s: State, r: Report, b: Binding, frames: seq<Frame>)
    requires frames != [] && BindingMode(r, b) in {Some(Rows), Some(Cells)}
    ensures if Locatable(b) then WriteBinding(s, r, b, frames) == WriteNormal(WithSheet(s, Trim(b.sheet)), b, frames)
            else WriteBinding(s, r, b, frames).Failed?
  {
  }

  /** Streamed rows ascend, and no name is both streamed and written normally. */
  ghost predicate Sound(s: State) {
    && (forall k | k in s.streams :: Ascending(s.streams[k]))
    && forall k | k in s.streams :: k !in s.normal
  }

  lemma BindingKeepsSound(s: State, r: Report, b: Binding, frames: seq<Frame>)
    requires Sound(s) && WriteBinding(s, r, b, frames).Written?
    ensures Sound(WriteBinding(s, r, b, frames).state)
  {
    var sheet := Trim(b.sheet);
    if frames != [] && BindingMode(r, b) == Some(Streaming) {
      var log := if sheet in s.streams then s.streams[sheet] else [];
      StreamKeepsAscending(log, LinesOf(b, frames));
    }
  }

  lemma {:induction false} EveryRunIsSound(s: State, r: Report, results: seq<seq<Frame>>, n: nat)
    requires Sound(s) && n <= |r.bindings| == |results| && WriteFirst(s, r, results, n).Written?
    ensures Sound(WriteFirst(s, r, results, n).state)
    decreases n
  {
    if n > 0 {
      EveryRunIsSound(s, r, results, n - 1);
      BindingKeepsSound(WriteFirst(s, r, results, n - 1).state, r, r.bindings[n - 1], results[n - 1]);
    }
  }

  /** A failure ends the report. */
  lemma {:induction false} FailureIsFinal(s: State, r: Report, results: seq<seq<Frame>>, n: nat, m: nat)
    requires n <= m <= |r.bindings| == |results| && WriteFirst(s, r, results, n).Failed?
    ensures WriteFirst(s, r, results, m) == WriteFirst(s, r, results, n)
    decreases m - n
  {
    if n < m {
      FailureIsFinal(s, r, results, n, m - 1);
    }
  }

  // ---- Accepted reports never mix modes ----

  ghost predicate HasMode(r: Report, n: nat, sheet: string, streamed: bool)
    requires n <= |r.bindings|
  {
    exists i :: 0 <= i < n && Trim(r.bindings[i].sheet) == sheet
                && (BindingMode(r, r.bindings[i]) == Some(Streaming) <==> streamed)
  }

  /** What is in the writer's books after the first `n` bindings came from them. */
  ghost predicate BooksFrom(s: State, r: Report, n: nat)
    requires n <= |r.bindings|
  {
    && (forall k | k in s.streams :: HasMode(r, n, k, true))
    && (forall k | k in s.normal :: HasMode(r, n, k, false))
  }

  lemma HasModeLater(r: Report, n: nat, sheet: string, streamed: bool)
    requires n < |r.bindings| && HasMode(r, n, sheet, streamed)
    ensures HasMode(r, n + 1, sheet, streamed)
  {
    var i :| 0 <= i < n && Trim(r.bindings[i].sheet) == sheet
             && (BindingMode(r, r.bindings[i]) == Some(Streaming) <==> streamed);
  }

  lemma BooksNext(s: State, r: Report, n: nat, frames: seq<Frame>)
    requires n < |r.bindings| && BooksFrom(s, r, n) && WriteBinding(s, r, r.bindings[n], frames).Written?
    ensures BooksFrom(WriteBinding(s, r, r.bindings[n], frames).state, r, n + 1)
  {
    var b, s' := r.bindings[n], WriteBinding(s, r, r.bindings[n], frames).state;
    var streamed := BindingMode(r, b) == Some(Streaming);
    assert HasMode(r, n + 1, Trim(b.sheet), streamed);
    forall k | k in s'.streams ensures HasMode(r, n + 1, k, true) {
      if k in s.streams { HasModeLater(r, n, k, true); }
    }
    forall k | k in s'.normal ensures HasMode(r, n + 1, k, false) {
      if k in s.normal { HasModeLater(r, n, k, false); }
    }
  }

  lemma NoMixAt(s: State, r: Report, n: nat, frames: seq<Frame>)
    requires ReportOk(r) && n < |r.bindings| && BooksFrom(s, r, n)
    ensures WriteBinding(s, r, r.bindings[n], frames) != Failed(MixedModes)
  {
    var b := r.bindings[n];
    assert Entries(r)[n].Some?;
    var sheet, streamed := Trim(b.sheet), BindingMode(r, b) == Some(Streaming);
    if HasMode(r, n, sheet, !streamed) {
      var i :| 0 <= i < n && Trim(r.bindings[i].sheet) == sheet
               && (BindingMode(r, r.bindings[i]) == Some(Streaming) <==> !streamed);
      assert Entries(r)[i].value.0 == Entries(r)[n].value.0;
    }
    StreamErrors(if sheet in s.streams then s.streams[sheet] else [], LinesOf(b, frames));
  }

  lemma {:induction false} StreamErrors(log: seq<Line>, lines: seq<Line>)
    ensures var e := Stream(log, lines).error; e.None? || e == Some(NotAscending) || e == Some(OutOfBounds)
    decreases |lines|
  {
    if lines != [] {
      StreamErrors(log + [lines[0]], lines[1..]);
    }
  }

  lemma NoMixNext(s: State, r: Report, n: nat, frames: seq<Frame>)
    requires ReportOk(r) && n < |r.bindings| && BooksFrom(s, r, n)
    ensures var out := WriteBinding(s, r, r.bindings[n], frames);
            out != Failed(MixedModes) && (out.Written? ==> BooksFrom(out.state, r, n + 1))
  {
    NoMixAt(s, r, n, frames);
    if WriteBinding(s, r, r.bindings[n], frames).Written? {
      BooksNext(s, r, n, frames);
    }
  }

  lemma {:induction false} NoMixInFirst(template: map<string, Grid>, r: Report, results: seq<seq<Frame>>, n: nat)
    requires ReportOk(r) && n <= |r.bindings| == |results|
    ensures var out := WriteFirst(Opened(template), r, results, n);
            out != Failed(MixedModes) && (out.Written? ==> BooksFrom(out.state, r, n))
    decreases n
  {
    if n > 0 {
      NoMixInFirst(template, r, results, n - 1);
      var before := WriteFirst(Opened(template), r, results, n - 1);
      if before.Written? {
        NoMixNext(before.state, r, n - 1, results[n - 1]);
      }
    }
  }

  /** Whatever the queries return, the run of an accepted report never fails for mixed modes. */
  lemma AcceptedReportsNeverMixModes(template: map<string, Grid>, r: Report, results: seq<seq<Frame>>)
    requires ReportOk(r) && |results| == |r.bindings|
    ensures WriteReport(Opened(template), r, results) != Failed(MixedModes)
  {
    NoMixInFirst(template, r, results, |results|);
  }

  /** What can be wrong with an accepted binding: its sheet name is refused by the workbook, its
      clear range has no cells, its rows run into those streamed before, or it crosses the edge of
      the sheet. */
  predicate Explains(r: Report, b: Binding, error: Error) {
    match error
    case BadSheet => !b.nameable
    case BadClearRange => b.clear.Unlocatable? && BindingMode(r, b) != Some(Streaming)
    case NotAscending => BindingMode(r, b) == Some(Streaming)
    case OutOfBounds => true
    case _ => false
  }

  /** Of all failures, an accepted binding can only meet those that validation of the binding
      cannot see. */
  lemma AcceptedBindingsFailOnlySo(s: State, r: Report, b: Binding, frames: seq<Frame>)
    requires BindingOk(r, b) && WriteBinding(s, r, b, frames).Failed?
    ensures frames != []
    ensures var error := WriteBinding(s, r, b, frames).error; error == MixedModes || Explains(r, b, error)
  {
    if b.nameable {
      var sheet := Trim(b.sheet);
      if BindingMode(r, b) == Some(Streaming) {
        StreamedBinding(s, r, b, frames);
        StreamErrors(if sheet in s.streams then s.streams[sheet] else [], LinesOf(b, frames));
      } else {
        NormalBinding(s, r, b, frames);
      }
    }
  }

  // ---- The three modes agree on an empty sheet ----

  function InMode(b: Binding, mode: string): Binding {
    b.(writeMode := mode)
  }

  lemma ModeNames(r: Report, b: Binding)
    ensures BindingMode(r, InMode(b, "cells")) == Some(Cells)
    ensures BindingMode(r, InMode(b, "rows")) == Some(Rows)
    ensures BindingMode(r, InMode(b, "stream")) == Some(Streaming)
  {
    assert Trim("cells") == "cells" && Lower("cells") == "cells";
    assert Trim("rows") == "rows" && Lower("rows") == "rows";
    assert Trim("stream") == "stream" && Lower("stream") == "stream";
  }

  predicate Untouched(s: State, sheet: string) {
    sheet !in s.normal && sheet !in s.streams && GridOf(s, sheet) == map[]
  }

  lemma FittingLinesStream(lines: seq<Line>)
    requires Ascending(lines) && AllFit(lines)
    requires forall i | 0 <= i < |lines| ::
               lines[i].row >= 1 && 1 <= lines[i].col <= MAX_COLUMN && lines[i].values != []
    ensures Stream([], lines) == Streamed(lines, None)
  {
    StreamsExactly([], lines);
    assert [] + lines == lines;
  }

  lemma NormalIgnoresMode(s: State, b: Binding, frames: seq<Frame>)
    requires b.cell.At?
    ensures WriteNormal(s, InMode(b, "rows"), frames) == WriteNormal(s, InMode(b, "cells"), frames)
  {
  }

  lemma StreamOnAnEmptySheet(s: State, b: Binding, frames: seq<Frame>)
    requires b.cell.At? && Untouched(s, Trim(b.sheet))
    requires WriteNormal(WithSheet(s, Trim(b.sheet)), InMode(b, "cells"), frames).Written?
    ensures var s' := WithSheet(s, Trim(b.sheet));
            var normal, streamed := WriteNormal(s', InMode(b, "cells"), frames),
                                    WriteStream(s', InMode(b, "stream"), frames);
            && streamed.Written? && streamed.stats == normal.stats
            && Trim(b.sheet) in streamed.state.streams
            && Painted(map[], streamed.state.streams[Trim(b.sheet)]) == GridOf(normal.state, Trim(b.sheet))
  {
    LayoutAscends(frames, |frames|, HeaderOf(b), b.cell.col, b.cell.row);
    FittingLinesStream(LinesOf(b, frames));
    assert Cleared(map[], b.clear) == map[];
  }

  /** One binding on an empty sheet: if it can be written cell by cell, then also row by row and as
      a stream, with the same statistics, and the same cells. */
  lemma ModesAgreeOnAnEmptySheet(s: State, r: Report, b: Binding, frames: seq<Frame>)
    requires Untouched(s, Trim(b.sheet)) && frames != []
    requires WriteBinding(s, r, InMode(b, "cells"), frames).Written?
    ensures WriteBinding(s, r, InMode(b, "rows"), frames) == WriteBinding(s, r, InMode(b, "cells"), frames)
    ensures var byCell, streamed := WriteBinding(s, r, InMode(b, "cells"), frames),
                                    WriteBinding(s, r, InMode(b, "stream"), frames);
            && streamed.Written? && streamed.stats == byCell.stats
            && Trim(b.sheet) in streamed.state.streams
            && Painted(map[], streamed.state.streams[Trim(b.sheet)]) == GridOf(byCell.state, Trim(b.sheet))
  {
    ModeNames(r, b);
    NormalBinding(s, r, InMode(b, "cells"), frames);
    NormalBinding(s, r, InMode(b, "rows"), frames);
    StreamedBinding(s, r, InMode(b, "stream"), frames);
    NormalIgnoresMode(WithSheet(s, Trim(b.sheet)), b, frames);
    StreamOnAnEmptySheet(s, b, frames);
  }

  /** And conversely: a stream on an empty sheet can also be written cell by cell exactly when the
      clear range, which streams ignore, can be located and the empty values, which streams skip,
      fit as well. */
  lemma StreamsWriteCellByCellExactly(s: State, r: Report, b: Binding, frames: seq<Frame>)
    requires Untouched(s, Trim(b.sheet)) && frames != []
    requires WriteBinding(s, r, InMode(b, "stream"), frames).Written?
    ensures b.cell.At?
    ensures WriteBinding(s, r, InMode(b, "cells"), frames).Written? <==>
            !b.clear.Malformed? && !b.clear.Unlocatable? && AllFit(LinesOf(b, frames))
  {
    ModeNames(r, b);
    NormalBinding(s, r, InMode(b, "cells"), frames);
    StreamedBinding(s, r, InMode(b, "stream"), frames);
  }

  lemma StreamWrittenExactly(s: State, b: Binding, frames: seq<Frame>)
    requires b.cell.At? && Trim(b.sheet) in s.streams && Trim(b.sheet) !in s.normal
    ensures var lines, log := LinesOf(b, frames), s.streams[Trim(b.sheet)];
            WriteStream(s, b, frames).Written? <==>
              (lines != [] ==> lines[0].row > LastRow(log)) && AllStreamFit(lines)
  {
    LayoutAscends(frames, |frames|, HeaderOf(b), b.cell.col, b.cell.row);
    StreamsExactly(s.streams[Trim(b.sheet)], LinesOf(b, frames));
  }

  /** When a stream already has rows, the next binding on it is refused exactly when it starts at
      or above the last of them (or does not fit). */
  lemma StreamRefusedExactly(s: State, r: Report, b: Binding, frames: seq<Frame>)
    requires Sound(s) && frames != [] && b.cell.At? && b.nameable && Trim(b.sheet) != "" && Trim(b.sheet) in s.streams
    requires BindingMode(r, b) == Some(Streaming)
    ensures var lines, log := LinesOf(b, frames), s.streams[Trim(b.sheet)];
            WriteBinding(s, r, b, frames).Written? <==>
              (lines != [] ==> lines[0].row > LastRow(log)) && AllStreamFit(lines)
  {
    StreamedBinding(s, r, b, frames);
    StreamWrittenExactly(WithSheet(s, Trim(b.sheet)), b, frames);
  }

  // ---- Names that differ by case ----

  /** The `i`th binding streams something. */
  predicate Streams(r: Report, results: seq<seq<Frame>>, i: int)
    requires |r.bindings| == |results|
  {
    0 <= i < |results| && results[i] != [] && BindingMode(r, r.bindings[i]) == Some(Streaming)
  }

  ghost predicate StreamedBy(r: Report, results: seq<seq<Frame>>, n: nat, sheet: string)
    requires |r.bindings| == |results|
  {
    exists i :: 0 <= i < n && Streams(r, results, i) && Trim(r.bindings[i].sheet) == sheet
  }

  lemma StreamsNext(s: State, r: Report, b: Binding, frames: seq<Frame>, k: string)
    requires WriteBinding(s, r, b, frames).Written?
    ensures k in WriteBinding(s, r, b, frames).state.streams <==>
            k in s.streams || (frames != [] && BindingMode(r, b) == Some(Streaming) && Trim(b.sheet) == k)
  {
  }

  lemma {:induction false} StreamsComeFromBindings(template: map<string, Grid>, r: Report,
                                                  results: seq<seq<Frame>>, n: nat, k: string)
    requires n <= |r.bindings| == |results| && WriteFirst(Opened(template), r, results, n).Written?
    ensures k in WriteFirst(Opened(template), r, results, n).state.streams <==> StreamedBy(r, results, n, k)
    decreases n
  {
    if n > 0 {
      StreamsComeFromBindings(template, r, results, n - 1, k);
      StreamsNext(WriteFirst(Opened(template), r, results, n - 1).state, r, r.bindings[n - 1], results[n - 1], k);
      StreamedNext(r, results, n - 1, k);
    }
  }

  lemma StreamedNext(r: Report, results: seq<seq<Frame>>, n: nat, k: string)
    requires n < |r.bindings| == |results|
    ensures StreamedBy(r, results, n + 1, k) <==>
            StreamedBy(r, results, n, k) || (Streams(r, results, n) && Trim(r.bindings[n].sheet) == k)
  {
    if StreamedBy(r, results, n + 1, k) && !(Streams(r, results, n) && Trim(r.bindings[n].sheet) == k) {
      var i :| 0 <= i < n + 1 && Streams(r, results, i) && Trim(r.bindings[i].sheet) == k;
      assert i < n;
    }
  }

  /** No sheet of the workbook has two streams. */
  ghost predicate OneStreamPerSheet(s: State) {
    forall j, k | j in s.streams && k in s.streams && Lower(j) == Lower(k) :: j == k
  }

  /** The writer takes sheet names that differ by case for different sheets, the workbook does not.
      No sheet is streamed twice exactly when the streaming bindings spell every sheet one way. */
  lemma OneStreamPerSheetExactly(template: map<string, Grid>, r: Report, results: seq<seq<Frame>>)
    requires |r.bindings| == |results| && WriteReport(Opened(template), r, results).Written?
    ensures OneStreamPerSheet(WriteReport(Opened(template), r, results).state) <==>
            forall i, j | Streams(r, results, i) && Streams(r, results, j) ::
              SheetKey(r.bindings[i]) == SheetKey(r.bindings[j]) ==>
                Trim(r.bindings[i].sheet) == Trim(r.bindings[j].sheet)
  {
    var s, n := WriteReport(Opened(template), r, results).state, |results|;
    forall k ensures k in s.streams <==> StreamedBy(r, results, n, k) {
      StreamsComeFromBindings(template, r, results, n, k);
    }
    if OneStreamPerSheet(s) {
      forall i, j | Streams(r, results, i) && Streams(r, results, j)
                    && SheetKey(r.bindings[i]) == SheetKey(r.bindings[j])
        ensures Trim(r.bindings[i].sheet) == Trim(r.bindings[j].sheet)
      {
        assert StreamedBy(r, results, n, Trim(r.bindings[i].sheet))
               && StreamedBy(r, results, n, Trim(r.bindings[j].sheet));
      }
    }
  }

  function Streamer(sheet: string): Binding {
    Binding(sheet, At(1, 1), NoClear, None, "stream", 0, true, true)
  }

  const TWINS := Report("r", "", 0, 0, 0, true, [Streamer("Data"), Streamer("data")])
  const ONE_FRAME := [Frame([Field("a", [])])]
  const TITLE := Line(1, 1, [Title("a")])

  /** So an accepted report may stream the same rows of one sheet twice. */
  lemma TwinsStreamTheSameRows()
    ensures ReportOk(TWINS)
    ensures var out := WriteReport(Opened(map[]), TWINS, [ONE_FRAME, ONE_FRAME]);
            && out.Written? && Lower("Data") == Lower("data")
            && out.state.streams == map["Data" := [TITLE], "data" := [TITLE]]
  {
    TwinNames();
    var r, first, second := TWINS, TWINS.bindings[0], TWINS.bindings[1];
    TitleLayout();
    StreamsAfresh(Opened(map[]), r, first, "Data", ONE_FRAME, [TITLE]);
    var one := WriteBinding(Opened(map[]), r, first, ONE_FRAME);
    StreamsAfresh(one.state, r, second, "data", ONE_FRAME, [TITLE]);
    var two := WriteBinding(one.state, r, second, ONE_FRAME);
    assert two.state.streams == map["Data" := [TITLE], "data" := [TITLE]];
    var results := [ONE_FRAME, ONE_FRAME];
    assert WriteFirst(Opened(map[]), r, results, 0) == Written(Opened(map[]), Stats(0, 0, 0));
    assert WriteFirst(Opened(map[]), r, results, 1).state == one.state;
    assert WriteFirst(Opened(map[]), r, results, 2).state == two.state;
  }

  lemma TwinNames()
    ensures Trim("Data") == "Data" && Trim("data") == "data"
    ensures Lower("Data") == Lower("data") == "data"
    ensures NormalizeMode("") == Some(Cells) && NormalizeMode("stream") == Some(Streaming)
    ensures FirstNonEmpty("stream", "") == "stream"
  {
    assert Lower("Data") == "data" == Lower("data");
    assert Trim("stream") == "stream" && Lower("stream") == "stream";
    assert Trim("") == "" && Lower("") == "";
  }

  /** Streaming to a sheet that has no stream. */
  lemma StreamsAfresh(s: State, r: Report, b: Binding, sheet: string, frames: seq<Frame>, log: seq<Line>)
    requires frames != [] && Locatable(b) && BindingMode(r, b) == Some(Streaming) && sheet == Trim(b.sheet)
    requires sheet !in s.streams && sheet !in s.normal
    requires LinesOf(b, frames) == log && Stream([], log) == Streamed(log, None)
    ensures var out := WriteBinding(s, r, b, frames);
            && out.Written? && out.state.streams == s.streams[sheet := log] && out.state.normal == s.normal
  {
    StreamedBinding(s, r, b, frames);
  }

  lemma TitleLayout()
    ensures Layout(ONE_FRAME, true, 1, 1) == [TITLE] && Stream([], [TITLE]) == Streamed([TITLE], None)
  {
    var f := ONE_FRAME[0];
    assert Titles(f) == [Title("a")];
    assert FrameLines(f, true, 1, 1) == [TITLE];
    assert LayoutFirst(ONE_FRAME, 0, true, 1, 1) == Placed([], 1);
    assert LayoutFirst(ONE_FRAME, 1, true, 1, 1).lines == [TITLE];
    StreamOne([], TITLE);
    assert SetRowError([], TITLE).None?;
    assert [] + [TITLE] == [TITLE];
  }
}
