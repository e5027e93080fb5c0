/** The writer's two books and the sheets of the workbook.  The writer tells sheets apart by their
    trimmed names, the workbook regardless of case: when is a sheet in both books all the same, and
    how can a report fail that validation has accepted? */
module ExcelBooks {
  import opened Wrappers
  import opened Text
  import opened ExcelSheets
  import opened ExcelReport

  /** No sheet of the workbook is both streamed and written normally. */
  ghost predicate SheetsApart(s: State) {
    forall j, k | j in s.streams && k in s.normal :: Lower(j) != Lower(k)
  }

  /** The `i`th binding writes something cell by cell or row by row. */
  predicate WritesNormally(r: Report, results: seq<seq<Frame>>, i: int)
    requires |r.bindings| == |results|
  {
    0 <= i < |results| && results[i] != [] && BindingMode(r, r.bindings[i]) != Some(Streaming)
  }

  ghost predicate NormalBy(r: Report, results: seq<seq<Frame>>, n: nat, sheet: string)
    requires |r.bindings| == |results|
  {
    exists i :: 0 <= i < n && WritesNormally(r, results, i) && Trim(r.bindings[i].sheet) == sheet
  }

  lemma NormalNext(s: State, r: Report, b: Binding, frames: seq<Frame>, k: string)
    requires WriteBinding(s, r, b, frames).Written?
    ensures k in WriteBinding(s, r, b, frames).state.normal <==>
            k in s.normal || (frames != [] && BindingMode(r, b) != Some(Streaming) && Trim(b.sheet) == k)
  {
  }

  lemma WrittenNext(r: Report, results: seq<seq<Frame>>, n: nat, k: string)
    requires n < |r.bindings| == |results|
    ensures NormalBy(r, results, n + 1, k) <==>
            NormalBy(r, results, n, k) || (WritesNormally(r, results, n) && Trim(r.bindings[n].sheet) == k)
  {
    if NormalBy(r, results, n + 1, k) && !(WritesNormally(r, results, n) && Trim(r.bindings[n].sheet) == k) {
      var i :| 0 <= i < n + 1 && WritesNormally(r, results, i) && Trim(r.bindings[i].sheet) == k;
      assert i < n;
    }
  }

  lemma {:induction false} NormalSheetsComeFromBindings(template: map<string, Grid>, r: Report,
                                                       results: seq<seq<Frame>>, n: nat, k: string)
    requires n <= |r.bindings| == |results| && WriteFirst(Opened(template), r, results, n).Written?
    ensures k in WriteFirst(Opened(template), r, results, n).state.normal <==> NormalBy(r, results, n, k)
    decreases n
  {
    if n > 0 {
      NormalSheetsComeFromBindings(template, r, results, n - 1, k);
      NormalNext(WriteFirst(Opened(template), r, results, n - 1).state, r, r.bindings[n - 1], results[n - 1], k);
      WrittenNext(r, results, n - 1, k);
    }
  }

  /** Whatever the report: no sheet is in both books exactly if no binding that streams something
      and none that writes something otherwise are of one sheet. */
  lemma SheetsApartExactly(template: map<string, Grid>, r: Report, results: seq<seq<Frame>>)
    requires |r.bindings| == |results| && WriteReport(Opened(template), r, results).Written?
    ensures SheetsApart(WriteReport(Opened(template), r, results).state) <==>
            forall i, j | Streams(r, results, i) && WritesNormally(r, results, j) ::
              SheetKey(r.bindings[i]) != SheetKey(r.bindings[j])
  {
    var s, n := WriteReport(Opened(template), r, results).state, |results|;
    forall k
      ensures k in s.streams <==> StreamedBy(r, results, n, k)
      ensures k in s.normal <==> NormalBy(r, results, n, k)
    {
      StreamsComeFromBindings(template, r, results, n, k);
      NormalSheetsComeFromBindings(template, r, results, n, k);
    }
    if SheetsApart(s) {
      forall i, j | Streams(r, results, i) && WritesNormally(r, results, j)
        ensures SheetKey(r.bindings[i]) != SheetKey(r.bindings[j])
      {
        assert StreamedBy(r, results, n, Trim(r.bindings[i].sheet))
               && NormalBy(r, results, n, Trim(r.bindings[j].sheet));
      }
    }
  }

  /** An accepted report gives every sheet of the workbook one mode, however its name is spelled. */
  lemma AcceptedReportsKeepSheetsApart(template: map<string, Grid>, r: Report, results: seq<seq<Frame>>)
    requires ReportOk(r) && |r.bindings| == |results| && WriteReport(Opened(template), r, results).Written?
    ensures SheetsApart(WriteReport(Opened(template), r, results).state)
  {
    forall i, j | Streams(r, results, i) && WritesNormally(r, results, j)
      ensures SheetKey(r.bindings[i]) != SheetKey(r.bindings[j])
    {
      OneModeAt(r, i, j);
    }
    SheetsApartExactly(template, r, results);
  }

  lemma OneModeAt(r: Report, i: nat, j: nat)
    requires ReportOk(r) && i < |r.bindings| && j < |r.bindings|
    ensures SheetKey(r.bindings[i]) == SheetKey(r.bindings[j]) ==>
              BindingMode(r, r.bindings[i]) == BindingMode(r, r.bindings[j])
  {
    assert Entries(r)[i].Some? && Entries(r)[j].Some?;
  }

  // ---- How an accepted report can fail ----

  lemma BindingExplains(s: State, r: Report, n: nat, frames: seq<Frame>)
    requires ReportOk(r) && n < |r.bindings| && BooksFrom(s, r, n)
    ensures var out := WriteBinding(s, r, r.bindings[n], frames);
            out.Failed? ==> frames != [] && Explains(r, r.bindings[n], out.error)
  {
    assert Entries(r)[n].Some?;
    NoMixAt(s, r, n, frames);
    if WriteBinding(s, r, r.bindings[n], frames).Failed? {
      AcceptedBindingsFailOnlySo(s, r, r.bindings[n], frames);
    }
  }

  /** The bindings before the `i`th were written, and the `i`th fails, explainably. */
  ghost predicate FailsAt(template: map<string, Grid>, r: Report, results: seq<seq<Frame>>, i: nat, error: Error)
    requires |r.bindings| == |results|
  {
    && i < |results| && results[i] != [] && Explains(r, r.bindings[i], error)
    && WriteFirst(Opened(template), r, results, i).Written?
    && WriteFirst(Opened(template), r, results, i + 1) == Failed(error)
  }

  lemma FailsHere(template: map<string, Grid>, r: Report, results: seq<seq<Frame>>, i: nat)
    requires ReportOk(r) && i < |r.bindings| == |results| && WriteFirst(Opened(template), r, results, i).Written?
    ensures var out := WriteFirst(Opened(template), r, results, i + 1);
            out.Failed? ==> FailsAt(template, r, results, i, out.error)
  {
    NoMixInFirst(template, r, results, i);
    BindingExplains(WriteFirst(Opened(template), r, results, i).state, r, i, results[i]);
  }

  lemma {:induction false} FailsSomewhere(template: map<string, Grid>, r: Report, results: seq<seq<Frame>>, n: nat)
    requires ReportOk(r) && n <= |r.bindings| == |results|
    ensures var out := WriteFirst(Opened(template), r, results, n);
            out.Failed? ==> exists i | 0 <= i < n :: FailsAt(template, r, results, i, out.error)
    decreases n
  {
    if n > 0 {
      FailsSomewhere(template, r, results, n - 1);
      if WriteFirst(Opened(template), r, results, n - 1).Written? { FailsHere(template, r, results, n - 1); }
    }
  }

  /** A report that was accepted and fails all the same fails at its first binding that cannot be
      written, and for a reason that validation cannot see. */
  lemma AcceptedReportsFailOnlySo(template: map<string, Grid>, r: Report, results: seq<seq<Frame>>)
    requires ReportOk(r) && |r.bindings| == |results| && WriteReport(Opened(template), r, results).Failed?
    ensures var error := WriteReport(Opened(template), r, results).error;
            && error in {BadSheet, BadClearRange, NotAscending, OutOfBounds}
            && exists i | 0 <= i < |results| :: FailsAt(template, r, results, i, error)
  {
    FailsSomewhere(template, r, results, |results|);
  }

  // ---- A report that was never validated ----

  const SPLIT := Report("r", "", 0, 0, 0, true, [Streamer("Data"), Streamer("data").(writeMode := "cells")])

  lemma FirstIsStreamed(r: Report)
    requires r == SPLIT
    ensures var one := WriteBinding(Opened(map[]), r, r.bindings[0], ONE_FRAME);
            one.Written? && one.state.streams == map["Data" := [TITLE]] && one.state.normal == {}
  {
    SplitModes();
    TitleLayout();
    StreamsAfresh(Opened(map[]), r, r.bindings[0], "Data", ONE_FRAME, [TITLE]);
  }

  lemma SecondIsNot(s: State, r: Report)
    requires r == SPLIT && "data" !in s.streams
    ensures var two := WriteBinding(s, r, r.bindings[1], ONE_FRAME);
            two.Written? && two.state.streams == s.streams && two.state.normal == s.normal + {"data"}
  {
    SplitModes();
    TitleLayout();
    NormalBinding(s, r, r.bindings[1], ONE_FRAME);
  }

  lemma SplitIsRefused()
    ensures !ReportOk(SPLIT)
  {
    SplitModes();
    assert Entries(SPLIT)[0] == Some(("data", Streaming)) && Entries(SPLIT)[1] == Some(("data", Cells));
  }

  /** Streamed and written cell by cell: one sheet is in both books. */
  lemma OneSheetInBothBooks()
    ensures !ReportOk(SPLIT)
    ensures var out := WriteReport(Opened(map[]), SPLIT, [ONE_FRAME, ONE_FRAME]);
            && out.Written? && !SheetsApart(out.state)
            && out.state.streams == map["Data" := [TITLE]] && out.state.normal == {"data"}
  {
    var r, results := SPLIT, [ONE_FRAME, ONE_FRAME];
    SplitIsRefused();
    TwinNames();
    FirstIsStreamed(r);
    var one := WriteBinding(Opened(map[]), r, r.bindings[0], ONE_FRAME);
    SecondIsNot(one.state, r);
    assert WriteFirst(Opened(map[]), r, results, 0) == Written(Opened(map[]), Stats(0, 0, 0));
    assert WriteFirst(Opened(map[]), r, results, 1).state == one.state;
    assert WriteFirst(Opened(map[]), r, results, 2).state == WriteBinding(one.state, r, r.bindings[1], ONE_FRAME).state;
    var s := WriteReport(Opened(map[]), r, results).state;
    assert "Data" in s.streams && "data" in s.normal;
  }

  lemma SplitModes()
    ensures Trim("Data") == "Data" && Trim("data") == "data" && Lower("Data") == Lower("data") == "data"
    ensures BindingMode(SPLIT, SPLIT.bindings[0]) == Some(Streaming)
    ensures BindingMode(SPLIT, SPLIT.bindings[1]) == Some(Cells)
  {
    TwinNames();
    ModeNames(SPLIT, Streamer("data"));
  }
}
