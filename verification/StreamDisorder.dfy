/** Streams whose times may go back or be undefined: exactly when is the window that the batches
    build up still the window of the whole history? */
module StreamDisorder {
  import opened Wrappers
  import opened StreamWindow

  /** Of `times` the first `dropped` rows are gone.  The window of the rest is the window of all
      rows if no dropped row is within retention of the newest, or if the row limit leaves out all
      rows before the first one that still is. */
  ghost predicate Unharmed(times: seq<Option<int>>, dropped: nat, maxRows: int, retention: int)
    requires dropped <= |times|
  {
    if times == [] then true
    else
      var latest, byCount := times[|times| - 1], StartByCount(|times|, maxRows);
      if latest.None? then dropped <= byCount
      else
        var cutoff := latest.value - retention;
        || (forall i | 0 <= i < dropped :: !Reaches(times[i], cutoff))
        || dropped + FirstReaching(times[dropped..], cutoff) <= byCount
  }

  lemma StartWithLatest(times: seq<Option<int>>, maxRows: int, retention: int)
    requires retention > 0 && times != [] && times[|times| - 1].Some?
    ensures var k, byCount := FirstReaching(times, times[|times| - 1].value - retention),
                            StartByCount(|times|, maxRows);
            Start(|times|, Some(times), maxRows, retention) == if k > byCount then k else byCount
  {
    LatestReaches(times, retention);
  }

  /** Dropping rows moves the first row within retention exactly if such a row is dropped. */
  lemma FirstReachingAfterDropping(times: seq<Option<int>>, cutoff: int, dropped: nat)
    requires dropped <= |times|
    ensures (forall i | 0 <= i < dropped :: !Reaches(times[i], cutoff)) ==>
              FirstReaching(times, cutoff) == dropped + FirstReaching(times[dropped..], cutoff)
    ensures !(forall i | 0 <= i < dropped :: !Reaches(times[i], cutoff)) ==> FirstReaching(times, cutoff) < dropped
  {
    var k := FirstReaching(times[dropped..], cutoff);
    FirstReachingSplits(times, cutoff);
    FirstReachingSplits(times[dropped..], cutoff);
    if forall i | 0 <= i < dropped :: !Reaches(times[i], cutoff) {
      forall i | 0 <= i < dropped + k ensures !Reaches(times[i], cutoff) {
        if i >= dropped { assert times[i] == times[dropped..][i - dropped]; }
      }
      FirstReachingIs(times, cutoff, dropped + k);
    }
  }

  /** The window of what is left is where the window of all rows is, exactly if unharmed. */
  lemma WindowShiftsExactly(times: seq<Option<int>>, dropped: nat, maxRows: int, retention: int)
    requires maxRows >= 1 && retention > 0 && (dropped == 0 || dropped < |times|)
    ensures dropped + Start(|times| - dropped, Some(times[dropped..]), maxRows, retention) ==
              Start(|times|, Some(times), maxRows, retention)
            <==> Unharmed(times, dropped, maxRows, retention)
  {
    if times == [] {
      assert times[dropped..] == times;
    } else {
      var rest, latest := times[dropped..], times[|times| - 1];
      assert rest[|rest| - 1] == latest;
      if latest.Some? {
        StartWithLatest(times, maxRows, retention);
        StartWithLatest(rest, maxRows, retention);
        FirstReachingAfterDropping(times, latest.value - retention, dropped);
      }
    }
  }

  // ---- Tables ----

  /** Trimming the rows from `dropped` on, instead of all rows, does no harm. */
  ghost predicate TableUnharmed(t: Table, dropped: nat, maxRows: int, retention: int)
    requires Rectangular(t) && dropped <= RowCount(t)
  {
    if retention <= 0 || Times(t).None? then dropped <= StartByCount(RowCount(t), maxRows)
    else Unharmed(Times(t).value, dropped, maxRows, retention)
  }

  lemma FromTellsTheStart(t: Table, s: nat, s': nat)
    requires Rectangular(t) && s <= RowCount(t) && s' <= RowCount(t)
    ensures From(t, s) == From(t, s') <==> s == s'
  {
    FromParts(t, s);
    FromParts(t, s');
  }

  lemma TrimmedRest(t: Table, dropped: nat, maxRows: int, retention: int)
    requires maxRows >= 1 && Rectangular(t) && (dropped == 0 || dropped < RowCount(t))
    ensures var all := dropped + StartOf(From(t, dropped), maxRows, retention);
            && Trimmed(From(t, dropped), maxRows, retention) == From(t, all)
            && (all == 0 || all < RowCount(t))
  {
    FromParts(t, dropped);
    StartBound(From(t, dropped), maxRows, retention);
    FromTwice(t, dropped, StartOf(From(t, dropped), maxRows, retention));
  }

  /** The start of the rest tells whether it is where it would be in the whole table. */
  lemma RestStartsExactly(t: Table, dropped: nat, maxRows: int, retention: int)
    requires maxRows >= 1 && Rectangular(t) && (dropped == 0 || dropped < RowCount(t))
    ensures dropped + StartOf(From(t, dropped), maxRows, retention) == StartOf(t, maxRows, retention)
            <==> TableUnharmed(t, dropped, maxRows, retention)
  {
    FromParts(t, dropped);
    if retention > 0 && Times(t).Some? {
      assert |Times(t).value| == RowCount(t);
      WindowShiftsExactly(Times(t).value, dropped, maxRows, retention);
    }
  }

  lemma TrimmedRestExactly(t: Table, dropped: nat, maxRows: int, retention: int)
    requires maxRows >= 1 && Rectangular(t) && (dropped == 0 || dropped < RowCount(t))
    ensures Trimmed(From(t, dropped), maxRows, retention) == Trimmed(t, maxRows, retention)
            <==> TableUnharmed(t, dropped, maxRows, retention)
  {
    TrimmedRest(t, dropped, maxRows, retention);
    RestStartsExactly(t, dropped, maxRows, retention);
    StartBound(t, maxRows, retention);
    FromTellsTheStart(t, dropped + StartOf(From(t, dropped), maxRows, retention), StartOf(t, maxRows, retention));
  }

  /** What a caller can tell from the times and the limits before an append. */
  ghost predicate AppendAgrees(h: Table, b: Table, maxRows: int, retention: int)
    requires maxRows >= 1 && Rectangular(h) && Rectangular(b) && h.schema == b.schema
  {
    StartBound(h, maxRows, retention);
    ConcatParts(h, b);
    retention <= 0 || Times(h).None?
    || Unharmed(Times(Concat(h, b)).value, StartOf(h, maxRows, retention), maxRows, retention)
  }

  /** One append to the window of `h` gives the window of `h` and `b` exactly if it agrees. */
  lemma AppendRefinesExactly(h: Table, b: Table, maxRows: int, retention: int)
    requires maxRows >= 1 && Rectangular(h) && Rectangular(b) && h.schema == b.schema
    ensures Appended(Some(Trimmed(h, maxRows, retention)), b, maxRows, retention) ==
            Trimmed(Concat(h, b), maxRows, retention)
            <==> AppendAgrees(h, b, maxRows, retention)
  {
    var s, all := StartOf(h, maxRows, retention), Concat(h, b);
    StartBound(h, maxRows, retention);
    ConcatParts(h, b);
    FromConcat(h, b, s);
    TrimmedRestExactly(all, s, maxRows, retention);
  }

  // ---- Streams ----

  ghost predicate IsWindow(batches: seq<Table>, maxRows: int, retention: int)
    requires batches != [] && AllRectangular(batches)
  {
    Incremental(batches, maxRows, retention) == Trimmed(History(batches), maxRows, retention)
  }

  /** The last batch is appended to a window, or starts a new history. */
  ghost predicate LastAppendAgrees(batches: seq<Table>, maxRows: int, retention: int)
    requires maxRows >= 1 && batches != [] && AllRectangular(batches)
  {
    var n := |batches| - 1;
    n > 0 && batches[n - 1].schema == batches[n].schema ==>
      (HistoryIsRectangular(batches[..n]);
       AppendAgrees(History(batches[..n]), batches[n], maxRows, retention))
  }

  lemma LastAppendExactly(batches: seq<Table>, maxRows: int, retention: int)
    requires maxRows >= 1 && batches != [] && AllRectangular(batches)
    requires |batches| > 1 ==> IsWindow(batches[..|batches| - 1], maxRows, retention)
    ensures IsWindow(batches, maxRows, retention) <==> LastAppendAgrees(batches, maxRows, retention)
  {
    var n := |batches| - 1;
    if n > 0 && batches[n - 1].schema == batches[n].schema {
      HistoryIsRectangular(batches[..n]);
      AppendRefinesExactly(History(batches[..n]), batches[n], maxRows, retention);
    }
  }

  ghost predicate WindowsUpTo(batches: seq<Table>, k: nat, maxRows: int, retention: int)
    requires k <= |batches| && AllRectangular(batches)
  {
    forall n | 0 < n <= k :: IsWindow(batches[..n], maxRows, retention)
  }

  ghost predicate AppendsAgreeUpTo(batches: seq<Table>, k: nat, maxRows: int, retention: int)
    requires maxRows >= 1 && k <= |batches| && AllRectangular(batches)
  {
    forall n | 0 < n <= k :: LastAppendAgrees(batches[..n], maxRows, retention)
  }

  lemma BatchExactly(batches: seq<Table>, k: nat, maxRows: int, retention: int)
    requires maxRows >= 1 && 0 < k <= |batches| && AllRectangular(batches)
    requires WindowsUpTo(batches, k - 1, maxRows, retention)
    ensures IsWindow(batches[..k], maxRows, retention) <==> LastAppendAgrees(batches[..k], maxRows, retention)
  {
    assert batches[..k][..k - 1] == batches[..k - 1];
    LastAppendExactly(batches[..k], maxRows, retention);
  }

  /** The kept rows are the window of the history after each of the first `k` batches, exactly if
      each append to a window agrees. */
  lemma {:induction false} AlwaysTheWindowExactly(batches: seq<Table>, k: nat, maxRows: int, retention: int)
    requires maxRows >= 1 && k <= |batches| && AllRectangular(batches)
    ensures WindowsUpTo(batches, k, maxRows, retention) <==> AppendsAgreeUpTo(batches, k, maxRows, retention)
  {
    if k > 0 {
      AlwaysTheWindowExactly(batches, k - 1, maxRows, retention);
      if WindowsUpTo(batches, k - 1, maxRows, retention) {
        BatchExactly(batches, k, maxRows, retention);
      }
    }
  }

  // ---- One batch by itself ----

  /** How many rows of the history the appends so far have dropped. */
  function Dropped(batches: seq<Table>, maxRows: int, retention: int): nat
    requires batches != [] && AllWellFormed(batches)
    decreases |batches|, 1
  {
    var before := DroppedBefore(batches, maxRows, retention);
    before + StartOf(From(History(batches), before), maxRows, retention)
  }

  /** How many of them were dropped before the last batch came. */
  function DroppedBefore(batches: seq<Table>, maxRows: int, retention: int): nat
    requires batches != [] && AllWellFormed(batches)
    decreases |batches|, 0
  {
    var n := |batches| - 1;
    if n > 0 && batches[n - 1].schema == batches[n].schema then Dropped(batches[..n], maxRows, retention) else 0
  }

  lemma FromZero(t: Table)
    requires WellFormed(t)
    ensures From(t, 0) == t
  {
  }

  /** What is kept is the history from there on. */
  ghost predicate KeptFromHistory(batches: seq<Table>, maxRows: int, retention: int)
    requires batches != [] && AllRectangular(batches)
  {
    var h, before := History(batches), DroppedBefore(batches, maxRows, retention);
    && Rectangular(h) && (before == 0 || before < RowCount(h))
    && Incremental(batches, maxRows, retention) == Trimmed(From(h, before), maxRows, retention)
  }

  lemma KeptFirst(batches: seq<Table>, maxRows: int, retention: int)
    requires batches != [] && AllRectangular(batches)
    requires |batches| == 1 || batches[|batches| - 2].schema != batches[|batches| - 1].schema
    ensures KeptFromHistory(batches, maxRows, retention)
  {
    FromZero(batches[|batches| - 1]);
  }

  /** A batch is appended to what was kept. */
  lemma KeptNext(batches: seq<Table>, h: Table, dropped: nat, maxRows: int, retention: int)
    requires |batches| > 1 && AllRectangular(batches) && batches[|batches| - 2].schema == batches[|batches| - 1].schema
    requires h == History(batches[..|batches| - 1]) && Rectangular(h) && (dropped == 0 || dropped < RowCount(h))
    requires Incremental(batches[..|batches| - 1], maxRows, retention) == From(h, dropped)
    requires dropped == DroppedBefore(batches, maxRows, retention)
    ensures KeptFromHistory(batches, maxRows, retention)
  {
    var b := batches[|batches| - 1];
    assert History(batches) == Concat(h, b);
    FromConcat(h, b, dropped);
    ConcatParts(h, b);
  }

  lemma DroppedNext(batches: seq<Table>, maxRows: int, retention: int)
    requires |batches| > 1 && AllWellFormed(batches) && batches[|batches| - 2].schema == batches[|batches| - 1].schema
    ensures DroppedBefore(batches, maxRows, retention) == Dropped(batches[..|batches| - 1], maxRows, retention)
  {
  }

  lemma KeptParts(batches: seq<Table>, maxRows: int, retention: int) returns (h: Table, dropped: nat)
    requires maxRows >= 1 && batches != [] && AllRectangular(batches) && KeptFromHistory(batches, maxRows, retention)
    ensures h == History(batches) && dropped == Dropped(batches, maxRows, retention)
    ensures Rectangular(h) && (dropped == 0 || dropped < RowCount(h))
    ensures Incremental(batches, maxRows, retention) == From(h, dropped)
  {
    var before := DroppedBefore(batches, maxRows, retention);
    h := History(batches);
    dropped := before + StartOf(From(h, before), maxRows, retention);
    TrimmedRest(h, before, maxRows, retention);
  }

  lemma {:induction false} AlwaysKeptFromHistory(batches: seq<Table>, maxRows: int, retention: int)
    requires maxRows >= 1 && batches != [] && AllRectangular(batches)
    ensures KeptFromHistory(batches, maxRows, retention)
    decreases |batches|
  {
    var n := |batches| - 1;
    if n > 0 && batches[n - 1].schema == batches[n].schema {
      AlwaysKeptFromHistory(batches[..n], maxRows, retention);
      var h, dropped := KeptParts(batches[..n], maxRows, retention);
      DroppedNext(batches, maxRows, retention);
      KeptNext(batches, h, dropped, maxRows, retention);
    } else {
      KeptFirst(batches, maxRows, retention);
    }
  }

  /** After a given batch, whatever was the case before, the kept rows are the window of the history
      exactly if the rows that were dropped before the batch do no harm now. */
  lemma IsWindowExactly(batches: seq<Table>, maxRows: int, retention: int)
    requires maxRows >= 1 && batches != [] && AllRectangular(batches)
    ensures var before := DroppedBefore(batches, maxRows, retention);
            && Rectangular(History(batches)) && before <= RowCount(History(batches))
            && (IsWindow(batches, maxRows, retention) <==> TableUnharmed(History(batches), before, maxRows, retention))
  {
    AlwaysKeptFromHistory(batches, maxRows, retention);
    TrimmedRestExactly(History(batches), DroppedBefore(batches, maxRows, retention), maxRows, retention);
  }

  // ---- Snapshots ----

  /** A snapshot of the kept rows at another size, when these are the window of the history. */
  lemma SnapshotIsWindowExactly(batches: seq<Table>, maxRows: int, fewer: int, retention: int)
    requires maxRows >= 1 && fewer >= 1 && batches != [] && AllRectangular(batches)
    requires IsWindow(batches, maxRows, retention)
    ensures Rectangular(History(batches)) && StartOf(History(batches), maxRows, retention) <= RowCount(History(batches))
    ensures Trimmed(Incremental(batches, maxRows, retention), fewer, retention) ==
            Trimmed(History(batches), fewer, retention)
            <==> TableUnharmed(History(batches), StartOf(History(batches), maxRows, retention), fewer, retention)
  {
    var h := History(batches);
    HistoryIsRectangular(batches);
    StartBound(h, maxRows, retention);
    TrimmedRestExactly(h, StartOf(h, maxRows, retention), fewer, retention);
  }
}
