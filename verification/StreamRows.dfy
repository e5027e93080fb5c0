/** Which rows of a stream are kept, row by row. */
module StreamRows {
  import opened Wrappers
  import opened Text
  import opened StreamWindow

  // ---- The time column ----

  predicate TimeLike(h: Header) {
    h.kind.TimeType? || Lower(h.name) == "time"
  }

  /** The first field that is of time type or called "time", in whatever case. */
  predicate IsTimeColumn(schema: seq<Header>, j: int) {
    0 <= j < |schema| && TimeLike(schema[j]) && forall i | 0 <= i < j :: !TimeLike(schema[i])
  }

  lemma {:induction false} TimeIndexFinds(schema: seq<Header>)
    ensures var j := TimeIndex(schema);
            && (j < |schema| ==> IsTimeColumn(schema, j))
            && (j == |schema| ==> forall i | 0 <= i < |schema| :: !TimeLike(schema[i]))
    decreases |schema|
  {
    if schema != [] && !IsTime(schema[0]) {
      TimeIndexFinds(schema[1..]);
      forall i | 0 <= i < 1 + TimeIndex(schema[1..]) && i < |schema| ensures !TimeLike(schema[i]) {
        if i > 0 { assert schema[i] == schema[1..][i - 1]; }
      }
    }
  }

  /** The times of a table are those of its time column. */
  lemma TimesAreThose(t: Table, j: nat)
    requires WellFormed(t) && IsTimeColumn(t.schema, j)
    ensures Times(t).Some? && |Times(t).value| == |t.columns[j]|
    ensures forall i | 0 <= i < |t.columns[j]| :: Times(t).value[i] == t.columns[j][i].millis
  {
    TimeIndexFinds(t.schema);
    OneTimeColumn(t.schema, j, TimeIndex(t.schema));
  }

  lemma OneTimeColumn(schema: seq<Header>, j: int, k: int)
    requires IsTimeColumn(schema, j) && IsTimeColumn(schema, k)
    ensures j == k
  {
  }

  lemma NoTimes(t: Table)
    requires WellFormed(t) && forall i | 0 <= i < |t.schema| :: !TimeLike(t.schema[i])
    ensures Times(t).None?
  {
    TimeIndexFinds(t.schema);
  }

  // ---- Kept rows ----

  /** Not older than the retention, seen from the latest time. */
  predicate Young(time: Option<int>, latest: int, retention: int) {
    time.Some? && latest - time.value <= retention
  }

  /** Age counts: there is a retention, and the last row has a time. */
  predicate Aging(times: Option<seq<Option<int>>>, retention: int) {
    retention > 0 && times.Some? && times.value != [] && times.value[|times.value| - 1].Some?
  }

  /** Row `i` is kept: it is among the last `maxRows`, and it or a row before it is young. */
  ghost predicate Keeps(rows: nat, times: Option<seq<Option<int>>>, maxRows: int, retention: int, i: nat) {
    && rows - i <= maxRows
    && (Aging(times, retention) ==>
          exists j | 0 <= j <= i && j < |times.value| ::
            Young(times.value[j], times.value[|times.value| - 1].value, retention))
  }

  lemma AgedStart(times: seq<Option<int>>, maxRows: int, retention: int, i: nat)
    requires Aging(Some(times), retention) && i < |times|
    ensures i >= Start(|times|, Some(times), maxRows, retention) <==> Keeps(|times|, Some(times), maxRows, retention, i)
  {
    var latest := times[|times| - 1].value;
    var k := FirstReaching(times, latest - retention);
    LatestReaches(times, retention);
    FirstReachingSplits(times, latest - retention);
    assert Young(times[k], latest, retention);
    assert forall j | 0 <= j < k :: Reaches(times[j], latest - retention) <==> Young(times[j], latest, retention);
  }

  lemma KeptFromStart(rows: nat, times: Option<seq<Option<int>>>, maxRows: int, retention: int, i: nat)
    requires i < rows && (times.Some? ==> |times.value| == rows)
    ensures i >= Start(rows, times, maxRows, retention) <==> Keeps(rows, times, maxRows, retention, i)
  {
    if Aging(times, retention) { AgedStart(times.value, maxRows, retention, i); }
  }

  /** A table is cut to a suffix of its rows, the same in every column, and that suffix has exactly
      the rows that are among the last `maxRows` and not before the first young one. */
  lemma RowsAreKeptExactly(t: Table, maxRows: int, retention: int) returns (s: nat)
    requires maxRows >= 1 && Rectangular(t)
    ensures s <= RowCount(t)
    ensures forall i: nat | i < RowCount(t) :: i >= s <==> Keeps(RowCount(t), Times(t), maxRows, retention, i)
    ensures var kept := Trimmed(t, maxRows, retention);
            && kept.schema == t.schema && |kept.columns| == |t.columns|
            && forall c | 0 <= c < |t.columns| :: kept.columns[c] == t.columns[c][s..]
  {
    s := StartOf(t, maxRows, retention);
    StartBound(t, maxRows, retention);
    if Times(t).Some? { assert |Times(t).value| == RowCount(t); }
    forall i: nat | i < RowCount(t) ensures i >= s <==> Keeps(RowCount(t), Times(t), maxRows, retention, i) {
      KeptFromStart(RowCount(t), Times(t), maxRows, retention, i);
    }
  }

  /** In ordered times a row is kept exactly if it is young itself and among the last `maxRows`. */
  lemma OrderedRowsByThemselves(times: seq<Option<int>>, maxRows: int, retention: int, i: nat)
    requires Aging(Some(times), retention) && InOrder(times) && i < |times|
    ensures Keeps(|times|, Some(times), maxRows, retention, i) <==>
            |times| - i <= maxRows && Young(times[i], times[|times| - 1].value, retention)
  {
    var latest := times[|times| - 1].value;
    if j :| 0 <= j <= i && Young(times[j], latest, retention) {
      assert j < i ==> times[j].value <= times[i].value;
    }
  }

  // ---- The history ----

  /** The values of column `c` in the batches from `from` on, one batch after the other. */
  function Joined(batches: seq<Table>, from: nat, c: nat): seq<Value>
    requires from <= |batches| && forall i | from <= i < |batches| :: c < |batches[i].columns|
    decreases |batches|
  {
    var n := |batches| - 1;
    if from == |batches| then [] else Joined(batches[..n], from, c) + batches[n].columns[c]
  }

  /** The history has the rows of all batches since the schema last changed, in the order in which
      they came. */
  lemma {:induction false} HistoryJoins(batches: seq<Table>) returns (from: nat)
    requires batches != [] && AllWellFormed(batches)
    ensures from < |batches|
    ensures forall i | from <= i < |batches| :: batches[i].schema == batches[|batches| - 1].schema
    ensures from > 0 ==> batches[from - 1].schema != batches[from].schema
    ensures forall i | from <= i < |batches| :: |batches[i].columns| == |History(batches).columns|
    ensures forall c | 0 <= c < |History(batches).columns| :: History(batches).columns[c] == Joined(batches, from, c)
    decreases |batches|
  {
    var n := |batches| - 1;
    if n > 0 && batches[n - 1].schema == batches[n].schema {
      from := HistoryJoins(batches[..n]);
    } else {
      from := n;
      forall c | 0 <= c < |batches[n].columns| ensures batches[n].columns[c] == Joined(batches, n, c) {
        assert Joined(batches[..n], n, c) == [];
      }
    }
  }
}
