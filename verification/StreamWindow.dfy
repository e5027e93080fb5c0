/** The browser-side window of a streamed table: every batch is appended to what was kept of the
    batches before it, and the result is trimmed by row count and by age.  What does the window
    have to do with the stream as a whole? */
module StreamWindow {
  import opened Wrappers
  import opened Text

  datatype FieldType = TimeType | OtherType(tag: nat)

  datatype Header = Header(name: string, kind: FieldType)

  /** `millis` is what `toMillis` makes of the value; `None` also stands for not-a-number, which
      no comparison admits. */
  datatype Value = Value(raw: int, millis: Option<int>)

  datatype Table = Table(schema: seq<Header>, columns: seq<seq<Value>>)

  predicate WellFormed(t: Table) {
    |t.schema| == |t.columns|
  }

  function RowCount(t: Table): nat {
    if t.columns == [] then 0 else |t.columns[0]|
  }

  predicate Rectangular(t: Table) {
    WellFormed(t) && forall j | 0 <= j < |t.columns| :: |t.columns[j]| == RowCount(t)
  }

  // ---- Where the window starts ----

  predicate IsTime(h: Header) {
    h.kind.TimeType? || Lower(h.name) == "time"
  }

  /** The first time column, or the number of columns. */
  function TimeIndex(schema: seq<Header>): (j: nat)
    ensures j <= |schema|
  {
    if schema == [] || IsTime(schema[0]) then 0 else 1 + TimeIndex(schema[1..])
  }

  function Millis(values: seq<Value>): seq<Option<int>> {
    seq(|values|, i requires 0 <= i < |values| => values[i].millis)
  }

  function Times(t: Table): Option<seq<Option<int>>>
    requires WellFormed(t)
  {
    var j := TimeIndex(t.schema);
    if j == |t.schema| then None else Some(Millis(t.columns[j]))
  }

  predicate Reaches(time: Option<int>, cutoff: int) {
    time.Some? && time.value >= cutoff
  }

  function FirstReaching(times: seq<Option<int>>, cutoff: int): (k: nat)
    ensures k <= |times|
  {
    if times == [] || Reaches(times[0], cutoff) then 0 else 1 + FirstReaching(times[1..], cutoff)
  }

  function Start(rows: nat, times: Option<seq<Option<int>>>, maxRows: int, retention: int): nat {
    var byCount := if rows > maxRows then rows - maxRows else 0;
    if retention <= 0 || rows == 0 || times.None? || times.value == [] then byCount
    else
      var latest := times.value[|times.value| - 1];
      if latest.None? then byCount
      else
        var byAge := FirstReaching(times.value, latest.value - retention);
        if byAge < |times.value| && byAge > byCount then byAge else byCount
  }

  function StartOf(t: Table, maxRows: int, retention: int): nat
    requires WellFormed(t)
  {
    Start(RowCount(t), Times(t), maxRows, retention)
  }

  function Slice(values: seq<Value>, start: nat): seq<Value> {
    if start <= |values| then values[start..] else []
  }

  function From(t: Table, start: nat): Table {
    Table(t.schema, seq(|t.columns|, j requires 0 <= j < |t.columns| => Slice(t.columns[j], start)))
  }

  function Trimmed(t: Table, maxRows: int, retention: int): Table
    requires WellFormed(t)
  {
    From(t, StartOf(t, maxRows, retention))
  }

  function Concat(a: Table, b: Table): Table
    requires WellFormed(a) && WellFormed(b) && a.schema == b.schema
  {
    Table(b.schema, seq(|b.columns|, j requires 0 <= j < |b.columns| => a.columns[j] + b.columns[j]))
  }

  function Appended(existing: Option<Table>, incoming: Table, maxRows: int, retention: int): Table
    requires WellFormed(incoming) && (existing.Some? ==> WellFormed(existing.value))
  {
    if existing.None? || existing.value.schema != incoming.schema then Trimmed(incoming, maxRows, retention)
    else Trimmed(Concat(existing.value, incoming), maxRows, retention)
  }

  // ---- The frames and what is done to them ----

  class Field {
    const name: string
    const kind: FieldType
    var values: seq<Value>

    constructor (name: string, kind: FieldType, values: seq<Value>)
      ensures this.name == name && this.kind == kind && this.values == values
    {
      this.name, this.kind, this.values := name, kind, values;
    }
  }

  class DataFrame {
    const fields: seq<Field>

    ghost predicate Valid() {
      forall i, j | 0 <= i < j < |fields| :: fields[i] != fields[j]
    }

    ghost function Schema(): seq<Header> {
      seq(|fields|, j requires 0 <= j < |fields| => Header(fields[j].name, fields[j].kind))
    }

    ghost function Contents(): (t: Table)
      reads fields
      ensures WellFormed(t)
    {
      Table(Schema(), seq(|fields|, j requires 0 <= j < |fields| reads fields => fields[j].values))
    }

    constructor (fields: seq<Field>)
      ensures this.fields == fields
    {
      this.fields := fields;
    }
  }

  method FindTimeField(frame: DataFrame) returns (j: nat)
    ensures j == TimeIndex(frame.Schema())
  {
    j := 0;
    ghost var schema := frame.Schema();
    assert schema[0..] == schema;
    while j < |frame.fields|
      invariant 0 <= j <= |schema| && TimeIndex(schema) == j + TimeIndex(schema[j..])
    {
      assert schema[j..][1..] == schema[j + 1..];
      if frame.fields[j].kind.TimeType? || Lower(frame.fields[j].name) == "time" {
        return;
      }
      j := j + 1;
    }
  }

  method FindReaching(values: seq<Value>, cutoff: int) returns (k: nat)
    ensures k == FirstReaching(Millis(values), cutoff)
  {
    k := 0;
    ghost var times := Millis(values);
    assert times[0..] == times;
    while k < |values|
      invariant 0 <= k <= |times| && FirstReaching(times, cutoff) == k + FirstReaching(times[k..], cutoff)
    {
      assert times[k..][1..] == times[k + 1..];
      if values[k].millis.Some? && values[k].millis.value >= cutoff {
        return;
      }
      k := k + 1;
    }
  }

  method RetentionStartIndex(frame: DataFrame, maxRows: int, retention: int) returns (start: nat)
    ensures start == StartOf(frame.Contents(), maxRows, retention)
  {
    var rows := if |frame.fields| > 0 then |frame.fields[0].values| else 0;
    start := if rows > maxRows then rows - maxRows else 0;
    if retention <= 0 || rows == 0 {
      return;
    }
    var j := FindTimeField(frame);
    if j == |frame.fields| {
      return;
    }
    var values := frame.fields[j].values;
    if |values| == 0 || values[|values| - 1].millis.None? {
      return;
    }
    var k := FindReaching(values, values[|values| - 1].millis.value - retention);
    if k < |values| && k > start {
      start := k;
    }
  }

  method TrimFrame(frame: DataFrame, maxRows: int, retention: int)
    requires frame.Valid()
    modifies frame.fields
    ensures frame.Contents() == Trimmed(old(frame.Contents()), maxRows, retention)
  {
    var start := RetentionStartIndex(frame, maxRows, retention);
    for j := 0 to |frame.fields|
      invariant forall i | 0 <= i < j :: frame.fields[i].values == Slice(old(frame.fields[i].values), start)
      invariant forall i | j <= i < |frame.fields| :: frame.fields[i].values == old(frame.fields[i].values)
    {
      var values := frame.fields[j].values;
      frame.fields[j].values := if start <= |values| then values[start..] else [];
    }
  }

  method SameSchema(a: DataFrame, b: DataFrame) returns (same: bool)
    ensures same <==> a.Schema() == b.Schema()
  {
    if |a.fields| != |b.fields| {
      return false;
    }
    for j := 0 to |a.fields|
      invariant forall i | 0 <= i < j :: a.Schema()[i] == b.Schema()[i]
    {
      if a.fields[j].name != b.fields[j].name || a.fields[j].kind != b.fields[j].kind {
        assert a.Schema()[j] != b.Schema()[j];
        return false;
      }
    }
    return true;
  }

  ghost function ContentsOf(frame: DataFrame?): Option<Table>
    reads if frame == null then [] else frame.fields
  {
    if frame == null then None else Some(frame.Contents())
  }

  /** The kept values are prepended to the batch, in place, and the batch is trimmed. */
  method AppendFrame(existing: DataFrame?, incoming: DataFrame, maxRows: int, retention: int)
    requires incoming.Valid()
    requires existing != null ==> forall i, j | 0 <= i < |existing.fields| && 0 <= j < |incoming.fields| ::
                                    existing.fields[i] != incoming.fields[j]
    modifies incoming.fields
    ensures incoming.Contents() ==
            Appended(old(ContentsOf(existing)), old(incoming.Contents()), maxRows, retention)
    ensures ContentsOf(existing) == old(ContentsOf(existing))
  {
    if existing != null {
      var same := SameSchema(existing, incoming);
      if same {
        assert |existing.Schema()| == |incoming.Schema()|;
        for j := 0 to |incoming.fields|
          invariant forall i | 0 <= i < j ::
                      incoming.fields[i].values == existing.fields[i].values + old(incoming.fields[i].values)
          invariant forall i | j <= i < |incoming.fields| :: incoming.fields[i].values == old(incoming.fields[i].values)
        {
          incoming.fields[j].values := existing.fields[j].values + incoming.fields[j].values;
        }
        assert incoming.Contents() == Concat(old(existing.Contents()), old(incoming.Contents()));
      }
    }
    TrimFrame(incoming, maxRows, retention);
  }

  /** A snapshot is trimmed again and shares no field with the kept frame. */
  method CloneFrame(frame: DataFrame, maxRows: int, retention: int) returns (clone: DataFrame)
    ensures fresh(clone) && clone.Valid() && forall j | 0 <= j < |clone.fields| :: fresh(clone.fields[j])
    ensures clone.Contents() == Trimmed(frame.Contents(), maxRows, retention)
  {
    var start := RetentionStartIndex(frame, maxRows, retention);
    var fields: seq<Field> := [];
    for j := 0 to |frame.fields|
      invariant |fields| == j && forall i | 0 <= i < j :: fresh(fields[i])
      invariant forall i, k | 0 <= i < k < j :: fields[i] != fields[k]
      invariant forall i | 0 <= i < j ::
                  && fields[i].name == frame.fields[i].name && fields[i].kind == frame.fields[i].kind
                  && fields[i].values == Slice(frame.fields[i].values, start)
    {
      var values := frame.fields[j].values;
      var field := new Field(frame.fields[j].name, frame.fields[j].kind,
                             if start <= |values| then values[start..] else []);
      fields := fields + [field];
    }
    clone := new DataFrame(fields);
    assert clone.Schema() == frame.Schema();
  }

  // ---- Streams ----

  predicate AllWellFormed(batches: seq<Table>) {
    forall i | 0 <= i < |batches| :: WellFormed(batches[i])
  }

  predicate AllRectangular(batches: seq<Table>) {
    forall i | 0 <= i < |batches| :: Rectangular(batches[i])
  }

  /** What is kept after each batch. */
  function Incremental(batches: seq<Table>, maxRows: int, retention: int): (t: Table)
    requires batches != [] && AllWellFormed(batches)
    ensures WellFormed(t) && t.schema == batches[|batches| - 1].schema
  {
    var n := |batches| - 1;
    Appended(if n == 0 then None else Some(Incremental(batches[..n], maxRows, retention)),
             batches[n], maxRows, retention)
  }

  /** The rows streamed since the schema last changed. */
  function History(batches: seq<Table>): (t: Table)
    requires batches != [] && AllWellFormed(batches)
    ensures WellFormed(t) && t.schema == batches[|batches| - 1].schema
  {
    var n := |batches| - 1;
    if n == 0 || batches[n - 1].schema != batches[n].schema then batches[n]
    else Concat(History(batches[..n]), batches[n])
  }

  /** All times are defined and never go back. */
  predicate InOrder(times: seq<Option<int>>) {
    && (forall i | 0 <= i < |times| :: times[i].Some?)
    && forall i, j | 0 <= i < j < |times| :: times[i].value <= times[j].value
  }

  /** Times matter only when there is a time column and a retention. */
  predicate Timely(t: Table, retention: int)
    requires WellFormed(t)
  {
    retention <= 0 || Times(t).None? || InOrder(Times(t).value)
  }

  lemma {:induction false} FirstReachingIs(times: seq<Option<int>>, cutoff: int, k: nat)
    requires k <= |times| && (forall i | 0 <= i < k :: !Reaches(times[i], cutoff))
    requires k < |times| ==> Reaches(times[k], cutoff)
    ensures FirstReaching(times, cutoff) == k
    decreases k
  {
    if k > 0 {
      FirstReachingIs(times[1..], cutoff, k - 1);
    }
  }

  lemma {:induction false} FirstReachingSplits(times: seq<Option<int>>, cutoff: int)
    ensures var k := FirstReaching(times, cutoff);
            && (forall i | 0 <= i < k :: !Reaches(times[i], cutoff))
            && (k < |times| ==> Reaches(times[k], cutoff))
    decreases |times|
  {
    if times != [] && !Reaches(times[0], cutoff) {
      FirstReachingSplits(times[1..], cutoff);
      var k := FirstReaching(times[1..], cutoff);
      forall i | 0 <= i < k + 1 ensures !Reaches(times[i], cutoff) {
        if i > 0 { assert times[i] == times[1..][i - 1]; }
      }
    }
  }

  /** In ordered times, what is reached after dropping a prefix. */
  lemma FirstReachingDropped(times: seq<Option<int>>, cutoff: int, s: nat)
    requires InOrder(times) && s < |times|
    ensures var k := FirstReaching(times, cutoff);
            FirstReaching(times[s..], cutoff) == if k > s then k - s else 0
  {
    var k := FirstReaching(times, cutoff);
    FirstReachingSplits(times, cutoff);
    if k > s {
      FirstReachingIs(times[s..], cutoff, k - s);
    } else {
      assert k < s ==> times[k].value <= times[s].value;
      FirstReachingIs(times[s..], cutoff, 0);
    }
  }

  /** The latest time is always within its own retention. */
  lemma LatestReaches(times: seq<Option<int>>, retention: int)
    requires retention > 0 && times != [] && times[|times| - 1].Some?
    ensures FirstReaching(times, times[|times| - 1].value - retention) < |times|
  {
    var cutoff := times[|times| - 1].value - retention;
    FirstReachingSplits(times, cutoff);
    assert Reaches(times[|times| - 1], cutoff);
  }

  /** A later cutoff is reached later. */
  lemma LaterCutoffLater(all: seq<Option<int>>, n: nat, before: int, after: int)
    requires n <= |all| && before <= after && FirstReaching(all, after) < |all|
    ensures FirstReaching(all[..n], before) <= FirstReaching(all, after)
  {
    var k := FirstReaching(all, after);
    FirstReachingSplits(all, after);
    FirstReachingSplits(all[..n], before);
    if k < n {
      assert all[..n][k] == all[k] && Reaches(all[k], before);
    }
  }

  lemma CutoffsMoveOn(all: seq<Option<int>>, n: nat, retention: int, earlier: int, latest: int)
    requires retention > 0 && 0 < n <= |all|
    requires all[n - 1] == Some(earlier) && all[|all| - 1] == Some(latest) && earlier <= latest
    ensures FirstReaching(all[..n], earlier - retention) < n
    ensures FirstReaching(all[..n], earlier - retention) <= FirstReaching(all, latest - retention) < |all|
  {
    LatestReaches(all[..n], retention);
    LatestReaches(all, retention);
    LaterCutoffLater(all, n, earlier - retention, latest - retention);
  }

  function StartByCount(rows: nat, maxRows: int): nat {
    if rows > maxRows then rows - maxRows else 0
  }

  lemma StartWithin(times: seq<Option<int>>, maxRows: int, retention: int)
    requires retention > 0 && times != [] && InOrder(times)
    ensures var k, byCount := FirstReaching(times, times[|times| - 1].value - retention),
                            StartByCount(|times|, maxRows);
            Start(|times|, Some(times), maxRows, retention) == (if k < |times| && k > byCount then k else byCount)
  {
  }

  /** The window of a suffix that still has the window's first row. */
  lemma WindowOfSuffix(all: seq<Option<int>>, s: nat, maxRows: int, retention: int)
    requires maxRows >= 1 && InOrder(all) && s < |all| && retention > 0
    requires s <= Start(|all|, Some(all), maxRows, retention)
    ensures s + Start(|all| - s, Some(all[s..]), maxRows, retention) == Start(|all|, Some(all), maxRows, retention)
  {
    var rest := all[s..];
    assert rest[|rest| - 1] == all[|all| - 1];
    assert InOrder(rest);
    LatestReaches(all, retention);
    StartWithin(rest, maxRows, retention);
    StartWithin(all, maxRows, retention);
    FirstReachingDropped(all, all[|all| - 1].value - retention, s);
  }

  /** A later window of at most as many rows starts no earlier. */
  lemma WindowMovesOn(all: seq<Option<int>>, n: nat, maxRows: int, fewer: int, retention: int)
    requires 1 <= fewer <= maxRows && InOrder(all) && 0 < n <= |all| && retention > 0
    ensures var s := Start(n, Some(all[..n]), maxRows, retention);
            s < n && s <= Start(|all|, Some(all), fewer, retention)
  {
    var h, earlier, latest := all[..n], all[n - 1].value, all[|all| - 1].value;
    CutoffsMoveOn(all, n, retention, earlier, latest);
    assert h[|h| - 1] == all[n - 1];
    assert Start(n, Some(h), maxRows, retention) ==
           var k := FirstReaching(h, earlier - retention);
           if k > StartByCount(n, maxRows) then k else StartByCount(n, maxRows);
    StartWithin(all, fewer, retention);
  }

  /** Forgetting the rows before the window never moves a later window of at most as many rows. */
  lemma WindowShifts(all: seq<Option<int>>, n: nat, maxRows: int, fewer: int, retention: int)
    requires 1 <= fewer <= maxRows && InOrder(all) && n <= |all| && retention > 0
    ensures var s := Start(n, Some(all[..n]), maxRows, retention);
            && s <= n
            && s + Start(|all| - s, Some(all[s..]), fewer, retention) == Start(|all|, Some(all), fewer, retention)
  {
    if n == 0 {
      assert all[0..] == all;
    } else {
      WindowMovesOn(all, n, maxRows, fewer, retention);
      WindowOfSuffix(all, Start(n, Some(all[..n]), maxRows, retention), fewer, retention);
    }
  }

  // ---- Tables ----

  lemma ConcatParts(a: Table, b: Table)
    requires Rectangular(a) && Rectangular(b) && a.schema == b.schema
    ensures Rectangular(Concat(a, b)) && RowCount(Concat(a, b)) == RowCount(a) + RowCount(b)
    ensures Times(a).Some? ==> Times(b).Some? && Times(Concat(a, b)) == Some(Times(a).value + Times(b).value)
    ensures Times(a).None? ==> Times(b).None? && Times(Concat(a, b)).None?
  {
    var j, all := TimeIndex(a.schema), Concat(a, b);
    assert all.columns != [] ==> |all.columns[0]| == |a.columns[0]| + |b.columns[0]|;
    if j < |a.schema| {
      assert all.columns[j] == a.columns[j] + b.columns[j];
      assert Millis(all.columns[j]) == Millis(a.columns[j]) + Millis(b.columns[j]);
    }
  }

  lemma FromParts(t: Table, start: nat)
    requires Rectangular(t) && start <= RowCount(t)
    ensures Rectangular(From(t, start)) && RowCount(From(t, start)) == RowCount(t) - start
    ensures Times(t).Some? ==> Times(From(t, start)) == Some(Times(t).value[start..])
    ensures Times(t).None? ==> Times(From(t, start)).None?
  {
    var j, rest := TimeIndex(t.schema), From(t, start);
    assert rest.columns != [] ==> |rest.columns[0]| == |t.columns[0]| - start;
    if j < |t.schema| {
      assert rest.columns[j] == t.columns[j][start..];
      assert Millis(rest.columns[j]) == Millis(t.columns[j])[start..];
    }
  }

  lemma FromTwice(t: Table, s: nat, more: nat)
    requires Rectangular(t) && s + more <= RowCount(t)
    ensures From(From(t, s), more) == From(t, s + more)
  {
    forall j | 0 <= j < |t.columns| ensures From(From(t, s), more).columns[j] == From(t, s + more).columns[j] {
      assert t.columns[j][s..][more..] == t.columns[j][s + more..];
    }
  }

  lemma FromConcat(h: Table, b: Table, s: nat)
    requires Rectangular(h) && Rectangular(b) && h.schema == b.schema && s <= RowCount(h)
    ensures Concat(From(h, s), b) == From(Concat(h, b), s)
  {
    forall j | 0 <= j < |b.columns| ensures Concat(From(h, s), b).columns[j] == From(Concat(h, b), s).columns[j] {
      assert (h.columns[j] + b.columns[j])[s..] == h.columns[j][s..] + b.columns[j];
    }
  }

  lemma StartBound(t: Table, maxRows: int, retention: int)
    requires Rectangular(t) && maxRows >= 1
    ensures StartOf(t, maxRows, retention) <= RowCount(t)
    ensures RowCount(t) > 0 ==> StartOf(t, maxRows, retention) < RowCount(t)
    ensures RowCount(t) - StartOf(t, maxRows, retention) <= maxRows
  {
    if Times(t).Some? {
      assert |Times(t).value| == RowCount(t);
    }
  }

  lemma StartShifts(h: Table, b: Table, maxRows: int, fewer: int, retention: int)
    requires 1 <= fewer <= maxRows && Rectangular(h) && Rectangular(b) && h.schema == b.schema
    requires Timely(Concat(h, b), retention)
    ensures var s := StartOf(h, maxRows, retention);
            && s <= RowCount(h)
            && s + StartOf(From(Concat(h, b), s), fewer, retention) == StartOf(Concat(h, b), fewer, retention)
  {
    var s, all := StartOf(h, maxRows, retention), Concat(h, b);
    StartBound(h, maxRows, retention);
    ConcatParts(h, b);
    FromParts(all, s);
    if retention > 0 && Times(all).Some? {
      var times := Times(all).value;
      assert Times(h).value == times[..RowCount(h)];
      WindowShifts(times, RowCount(h), maxRows, fewer, retention);
    }
  }

  /** One append to a window. */
  lemma AppendRefines(h: Table, b: Table, maxRows: int, retention: int)
    requires maxRows >= 1 && Rectangular(h) && Rectangular(b) && h.schema == b.schema
    requires Timely(Concat(h, b), retention)
    ensures Appended(Some(Trimmed(h, maxRows, retention)), b, maxRows, retention) ==
            Trimmed(Concat(h, b), maxRows, retention)
  {
    var s, all := StartOf(h, maxRows, retention), Concat(h, b);
    StartShifts(h, b, maxRows, maxRows, retention);
    FromConcat(h, b, s);
    ConcatParts(h, b);
    StartBound(all, maxRows, retention);
    FromTwice(all, s, StartOf(From(all, s), maxRows, retention));
  }

  lemma {:induction false} HistoryIsRectangular(batches: seq<Table>)
    requires batches != [] && AllRectangular(batches)
    ensures Rectangular(History(batches))
    decreases |batches|
  {
    var n := |batches| - 1;
    if n > 0 && batches[n - 1].schema == batches[n].schema {
      HistoryIsRectangular(batches[..n]);
      ConcatParts(History(batches[..n]), batches[n]);
    }
  }

  lemma TimelyPrefix(h: Table, b: Table, retention: int)
    requires Rectangular(h) && Rectangular(b) && h.schema == b.schema && Timely(Concat(h, b), retention)
    ensures Timely(h, retention)
  {
    ConcatParts(h, b);
    if retention > 0 && Times(h).Some? {
      var times, all := Times(h).value, Times(h).value + Times(b).value;
      assert forall i | 0 <= i < |times| :: times[i] == all[i];
    }
  }

  /** Appending and trimming batch by batch keeps the window of the whole history. */
  lemma {:induction false} IncrementalIsWindowOfHistory(batches: seq<Table>, maxRows: int, retention: int)
    requires maxRows >= 1 && batches != [] && AllRectangular(batches)
    requires Timely(History(batches), retention)
    ensures Incremental(batches, maxRows, retention) == Trimmed(History(batches), maxRows, retention)
    decreases |batches|
  {
    var n := |batches| - 1;
    if n > 0 && batches[n - 1].schema == batches[n].schema {
      var h := History(batches[..n]);
      HistoryIsRectangular(batches[..n]);
      TimelyPrefix(h, batches[n], retention);
      IncrementalIsWindowOfHistory(batches[..n], maxRows, retention);
      AppendRefines(h, batches[n], maxRows, retention);
    }
  }

  lemma NothingAppended(h: Table, nothing: Table)
    requires WellFormed(h) && nothing == Table(h.schema, seq(|h.columns|, j => []))
    ensures Concat(h, nothing) == h
  {
    forall j | 0 <= j < |h.columns| ensures Concat(h, nothing).columns[j] == h.columns[j] {
      assert nothing.columns[j] == [];
    }
  }

  /** A snapshot for fewer rows is the window of the whole history at that size. */
  lemma SnapshotIsWindowOfHistory(batches: seq<Table>, maxRows: int, fewer: int, retention: int)
    requires 1 <= fewer <= maxRows && batches != [] && AllRectangular(batches)
    requires Timely(History(batches), retention)
    ensures Trimmed(Incremental(batches, maxRows, retention), fewer, retention) ==
            Trimmed(History(batches), fewer, retention)
  {
    var h := History(batches);
    IncrementalIsWindowOfHistory(batches, maxRows, retention);
    HistoryIsRectangular(batches);
    var nothing := Table(h.schema, seq(|h.columns|, j => []));
    NothingAppended(h, nothing);
    StartShifts(h, nothing, maxRows, fewer, retention);
    var s := StartOf(h, maxRows, retention);
    StartBound(h, fewer, retention);
    FromTwice(h, s, StartOf(From(h, s), fewer, retention));
  }

  /** The window is bounded, ends with the history's last row, and has no gaps. */
  lemma WindowIsBoundedAndKeepsTheLastRow(batches: seq<Table>, maxRows: int, retention: int, j: nat)
    requires maxRows >= 1 && batches != [] && AllRectangular(batches)
    requires Timely(History(batches), retention)
    requires RowCount(History(batches)) > 0 && j < |History(batches).columns|
    ensures var kept, all := Incremental(batches, maxRows, retention), History(batches);
            && 0 < RowCount(kept) <= maxRows
            && |kept.columns| == |all.columns| && 0 < |kept.columns[j]| == RowCount(kept) <= |all.columns[j]|
            && kept.columns[j] == all.columns[j][|all.columns[j]| - RowCount(kept)..]
            && kept.columns[j][RowCount(kept) - 1] == all.columns[j][|all.columns[j]| - 1]
  {
    IncrementalIsWindowOfHistory(batches, maxRows, retention);
    HistoryIsRectangular(batches);
    StartBound(History(batches), maxRows, retention);
    FromParts(History(batches), StartOf(History(batches), maxRows, retention));
  }

  function At(millis: int): Value {
    Value(millis, Some(millis))
  }

  const TIME := [Header("t", TimeType)]

  /** A table of one time column. */
  lemma TrimOneColumn(values: seq<Value>, maxRows: int, retention: int, start: nat)
    requires start == Start(|values|, Some(Millis(values)), maxRows, retention) <= |values|
    ensures Trimmed(Table(TIME, [values]), maxRows, retention) == Table(TIME, [values[start..]])
  {
    var t := Table(TIME, [values]);
    assert TimeIndex(t.schema) == 0;
    assert Times(t) == Some(Millis(t.columns[0]));
    assert From(t, start).columns == [values[start..]];
  }

  lemma ConcatOneColumn(a: seq<Value>, b: seq<Value>)
    ensures Concat(Table(TIME, [a]), Table(TIME, [b])) == Table(TIME, [a + b])
  {
    var ta, tb := Table(TIME, [a]), Table(TIME, [b]);
    assert Concat(ta, tb).columns[0] == ta.columns[0] + tb.columns[0] == a + b;
    assert Concat(ta, tb).columns == [a + b];
  }

  /** With times that go back, a row that a later window would have had is already gone. */
  lemma TimesThatGoBackBreakTheWindow()
    ensures var batches := [Table(TIME, [[At(1), At(100)]]), Table(TIME, [[At(2)]])];
            && Incremental(batches, 10, 3) == Table(TIME, [[At(100), At(2)]])
            && Trimmed(History(batches), 10, 3) == Table(TIME, [[At(1), At(100), At(2)]])
  {
    var a, b, batches := [At(1), At(100)], [At(2)], [Table(TIME, [[At(1), At(100)]]), Table(TIME, [[At(2)]])];
    assert batches[..1] == [Table(TIME, [a])];
    assert Millis(a) == [Some(1), Some(100)];
    FirstReachingIs(Millis(a), 97, 1);
    TrimOneColumn(a, 10, 3, 1);
    assert a[1..] == [At(100)];
    assert Incremental(batches[..1], 10, 3) == Table(TIME, [[At(100)]]);
    ConcatOneColumn([At(100)], b);
    assert [At(100)] + b == [At(100), At(2)];
    TrimOneColumn([At(100), At(2)], 10, 3, 0);
    assert History(batches[..1]) == Table(TIME, [a]);
    ConcatOneColumn(a, b);
    assert a + b == [At(1), At(100), At(2)];
    TrimOneColumn(a + b, 10, 3, 0);
  }
}
