/** A list of kdb+ dictionaries as a frame: a fast path for rows that all have the same keys, and
    the general path, which takes the union of the keys. */
module DictRows {
  import opened Wrappers
  import opened ColumnTypes
  import opened Sequences

  /** A row; its keys and its values (decoded) may be unreadable. */
  datatype Row = NotDict | Dict(names: Result<seq<string>>, values: Result<seq<Cell>>)

  datatype ParseError =
    | EmptyList
    | FirstNotDict
    | ItemNotDict(row: nat)
    | ItemKeys(row: nat, error: string)
    | ItemValues(row: nat, error: string)
    | ItemLengthsDiffer(row: nat)

  datatype Field = Field(name: string, column: Column)

  datatype Outcome = Parsed(fields: seq<Field>) | Failed(error: ParseError)

  function RowError(row: Row, i: nat): Option<ParseError> {
    if row.NotDict? then Some(ItemNotDict(i))
    else if row.names.Failure? then Some(ItemKeys(i, row.names.error))
    else if row.values.Failure? then Some(ItemValues(i, row.values.error))
    else if |row.names.value| != |row.values.value| then Some(ItemLengthsDiffer(i))
    else None
  }

  predicate Sound(row: Row) {
    RowError(row, 0).None?
  }

  predicate AllSound(rows: seq<Row>) {
    forall i | 0 <= i < |rows| :: Sound(rows[i])
  }

  /** Row `i` is the first unsound one. */
  predicate FirstUnsound(rows: seq<Row>, i: nat) {
    i < |rows| && !Sound(rows[i]) && forall j | 0 <= j < i :: Sound(rows[j])
  }

  // ---- What the general path computes ----

  function FirstSeen(names: seq<string>): seq<string> {
    if names == [] then []
    else
      var n := |names| - 1;
      var before := FirstSeen(names[..n]);
      if names[n] in before then before else before + [names[n]]
  }

  function AllNames(rows: seq<Row>): seq<string>
    requires AllSound(rows)
  {
    if rows == [] then [] else AllNames(rows[..|rows| - 1]) + rows[|rows| - 1].names.value
  }

  /** The cell of a name in a row: the last one of that name. */
  function CellOf(names: seq<string>, values: seq<Cell>, name: string): Option<Cell>
    requires |names| == |values|
  {
    var n := |names| - 1;
    if names == [] then None
    else if names[n] == name then Some(values[n])
    else CellOf(names[..n], values[..n], name)
  }

  function RowCell(row: Row, name: string): Cell
    requires Sound(row)
  {
    match CellOf(row.names.value, row.values.value, name)
    case Some(c) => c
    case None => Nil
  }

  function UnionColumn(rows: seq<Row>, name: string): seq<Cell>
    requires AllSound(rows)
  {
    seq(|rows|, i requires 0 <= i < |rows| => RowCell(rows[i], name))
  }

  ghost function Fields(names: seq<string>, columns: seq<seq<Cell>>): seq<Field>
    requires |names| == |columns|
  {
    seq(|names|, j requires 0 <= j < |names| => Field(names[j], Typed(columns[j])))
  }

  function UnionColumns(rows: seq<Row>, names: seq<string>): seq<seq<Cell>>
    requires AllSound(rows)
  {
    seq(|names|, j requires 0 <= j < |names| => UnionColumn(rows, names[j]))
  }

  ghost predicate IsGeneral(rows: seq<Row>, r: Outcome) {
    if AllSound(rows) then
      var names := FirstSeen(AllNames(rows));
      r == Parsed(Fields(names, UnionColumns(rows, names)))
    else r.Failed? && exists i: nat :: FirstUnsound(rows, i) && RowError(rows[i], i) == Some(r.error)
  }

  // ---- What the fast path computes ----

  predicate SameNames(rows: seq<Row>) {
    && AllSound(rows)
    && forall i | 0 <= i < |rows| :: rows[i].names == rows[0].names
  }

  function PositionColumn(rows: seq<Row>, j: nat): seq<Cell>
    requires SameNames(rows)
    requires rows != [] ==> j < |rows[0].names.value|
  {
    seq(|rows|, i requires 0 <= i < |rows| => rows[i].values.value[j])
  }

  function PositionColumns(rows: seq<Row>): seq<seq<Cell>>
    requires SameNames(rows) && rows != []
  {
    seq(|rows[0].names.value|, j requires 0 <= j < |rows[0].names.value| => PositionColumn(rows, j))
  }

  ghost function Uniform(rows: seq<Row>): seq<Field>
    requires SameNames(rows) && rows != []
  {
    Fields(rows[0].names.value, PositionColumns(rows))
  }

  /** What a list of dictionaries is parsed to. */
  ghost predicate IsParse(rows: seq<Row>, r: Outcome) {
    if rows == [] then r == Failed(EmptyList)
    else if rows[0].NotDict? then r == Failed(FirstNotDict)
    else if SameNames(rows) then r == Parsed(Uniform(rows))
    else IsGeneral(rows, r)
  }

  /** The same without the fast path. */
  ghost predicate IsParseWithoutFastPath(rows: seq<Row>, r: Outcome) {
    if rows == [] then r == Failed(EmptyList)
    else if rows[0].NotDict? then r == Failed(FirstNotDict)
    else IsGeneral(rows, r)
  }

  // ---- The parser ----

  method FrameFromColumns(names: seq<string>, columns: seq<seq<Cell>>) returns (fields: seq<Field>)
    requires |names| == |columns|
    ensures fields == Fields(names, columns)
  {
    fields := [];
    for j := 0 to |names|
      invariant fields == Fields(names, columns)[..j]
    {
      var column := TypedInterfaceColumn(columns[j]);
      fields := fields + [Field(names[j], column)];
    }
  }

  lemma ErrorOfUnsound(row: Row, i: nat)
    ensures RowError(row, i).Some? <==> !Sound(row)
  {
  }

  /** `None` when the rows do not all have the same keys. */
  method ParseUniformRows(rows: seq<Row>) returns (r: Option<Outcome>)
    requires rows != []
    ensures r.Some? && r.value.Parsed? ==> SameNames(rows) && r.value.fields == Uniform(rows)
    ensures r.Some? && r.value.Failed? ==>
              exists i: nat :: FirstUnsound(rows, i) && RowError(rows[i], i) == Some(r.value.error)
    ensures r.None? ==> !SameNames(rows)
  {
    var names: seq<string> := [];
    var columns: seq<seq<Cell>> := [];
    for i := 0 to |rows|
      invariant SameNames(rows[..i])
      invariant i > 0 ==> names == rows[0].names.value && columns == PositionColumns(rows[..i])
    {
      var row := rows[i];
      ErrorOfUnsound(row, i);
      if RowError(row, i).Some? {
        UnsoundAt(rows, i);
        return Some(Failed(RowError(row, i).value));
      }
      if i == 0 {
        names := row.names.value;
        columns := seq(|names|, j => []);
      } else if names != row.names.value {
        return None;
      }
      SameNamesNext(rows, i);
      PositionColumnsNext(rows, i, columns);
      columns := AppendRow(columns, row.values.value);
    }
    assert rows[..|rows|] == rows;
    var fields := FrameFromColumns(names, columns);
    return Some(Parsed(fields));
  }

  lemma UnsoundAt(rows: seq<Row>, i: nat)
    requires i < |rows| && AllSound(rows[..i]) && !Sound(rows[i])
    ensures FirstUnsound(rows, i)
  {
    forall j | 0 <= j < i ensures Sound(rows[j]) { assert rows[..i][j] == rows[j]; }
  }

  lemma SameNamesNext(rows: seq<Row>, i: nat)
    requires i < |rows| && SameNames(rows[..i]) && Sound(rows[i])
    requires i > 0 ==> rows[i].names == rows[0].names
    ensures SameNames(rows[..i + 1])
  {
    assert rows[..i + 1] == rows[..i] + [rows[i]];
  }

  lemma PositionColumnsNext(rows: seq<Row>, i: nat, columns: seq<seq<Cell>>)
    requires i < |rows| && SameNames(rows[..i + 1])
    requires |columns| == |rows[0].names.value| == |rows[i].values.value|
    requires if i == 0 then forall j | 0 <= j < |columns| :: columns[j] == []
             else SameNames(rows[..i]) && columns == PositionColumns(rows[..i])
    ensures PositionColumns(rows[..i + 1]) ==
            seq(|columns|, j requires 0 <= j < |columns| => columns[j] + [rows[i].values.value[j]])
  {
    var longer := PositionColumns(rows[..i + 1]);
    forall j | 0 <= j < |columns| ensures longer[j] == columns[j] + [rows[i].values.value[j]] {
      assert rows[..i + 1][i] == rows[i];
      if i > 0 {
        assert columns[j] == PositionColumn(rows[..i], j);
      }
    }
  }

  /** One value more in every column. */
  method AppendRow(columns: seq<seq<Cell>>, values: seq<Cell>) returns (longer: seq<seq<Cell>>)
    requires |columns| == |values|
    ensures longer == seq(|columns|, j requires 0 <= j < |columns| => columns[j] + [values[j]])
  {
    longer := columns;
    for j := 0 to |values|
      invariant |longer| == |columns|
      invariant forall k | 0 <= k < j :: longer[k] == columns[k] + [values[k]]
      invariant forall k | j <= k < |columns| :: longer[k] == columns[k]
    {
      longer := longer[j := longer[j] + [values[j]]];
    }
  }

  /** The general path after its first two checks. */
  method ParseUnionRows(rows: seq<Row>) returns (r: Outcome)
    ensures IsGeneral(rows, r)
  {
    var names: seq<string> := [];
    var seen: set<string> := {};
    var rowMaps: seq<map<string, Cell>> := [];
    for i := 0 to |rows|
      invariant AllSound(rows[..i]) && |rowMaps| == i
      invariant names == FirstSeen(AllNames(rows[..i])) && seen == set name | name in names
      invariant forall k | 0 <= k < i :: IsRowMap(rows[k], rowMaps[k])
    {
      var row := rows[i];
      ErrorOfUnsound(row, i);
      if RowError(row, i).Some? {
        UnsoundAt(rows, i);
        return Failed(RowError(row, i).value);
      }
      AllNamesNext(rows, i);
      var rowMap: map<string, Cell>;
      names, seen, rowMap := AddRow(AllNames(rows[..i]), names, seen, row);
      rowMaps := rowMaps + [rowMap];
    }
    assert rows[..|rows|] == rows;
    var columns: seq<seq<Cell>> := [];
    for j := 0 to |names|
      invariant columns == UnionColumns(rows, names)[..j]
    {
      var column := ColumnFromMaps(rows, rowMaps, names[j]);
      columns := columns + [column];
    }
    var fields := FrameFromColumns(names, columns);
    return Parsed(fields);
  }

  ghost predicate IsRowMap(row: Row, m: map<string, Cell>) {
    && Sound(row)
    && forall name :: CellOf(row.names.value, row.values.value, name) == if name in m then Some(m[name]) else None
  }

  lemma AllNamesNext(rows: seq<Row>, i: nat)
    requires i < |rows| && AllSound(rows[..i]) && Sound(rows[i])
    ensures AllSound(rows[..i + 1]) && AllNames(rows[..i + 1]) == AllNames(rows[..i]) + rows[i].names.value
  {
    assert rows[..i + 1] == rows[..i] + [rows[i]];
    assert rows[..i + 1][..i] == rows[..i];
  }

  lemma FirstSeenNext(names: seq<string>, name: string)
    ensures FirstSeen(names + [name]) == FirstSeen(names) + if name in FirstSeen(names) then [] else [name]
  {
    assert (names + [name])[..|names|] == names;
  }

  lemma FirstSeenOneMore(before: seq<string>, keys: seq<string>, c: nat)
    requires c < |keys|
    ensures var names := FirstSeen(before + keys[..c]);
            FirstSeen(before + keys[..c + 1]) == names + if keys[c] in names then [] else [keys[c]]
  {
    assert before + keys[..c + 1] == (before + keys[..c]) + [keys[c]];
    FirstSeenNext(before + keys[..c], keys[c]);
  }

  method AddRow(ghost before: seq<string>, names: seq<string>, seen: set<string>, row: Row)
    returns (names': seq<string>, seen': set<string>, m: map<string, Cell>)
    requires Sound(row) && names == FirstSeen(before) && seen == set name | name in names
    ensures names' == FirstSeen(before + row.names.value) && seen' == set name | name in names'
    ensures IsRowMap(row, m)
  {
    names', seen', m := names, seen, map[];
    var keys, values := row.names.value, row.values.value;
    assert before + keys[..0] == before;
    for c := 0 to |keys|
      invariant names' == FirstSeen(before + keys[..c]) && seen' == set name | name in names'
      invariant forall name :: CellOf(keys[..c], values[..c], name) == if name in m then Some(m[name]) else None
    {
      FirstSeenOneMore(before, keys, c);
      CellOfNext(keys, values, c);
      if keys[c] !in seen' {
        seen' := seen' + {keys[c]};
        names' := names' + [keys[c]];
      }
      m := m[keys[c] := values[c]];
    }
    assert keys[..|keys|] == keys && values[..|values|] == values;
  }

  lemma CellOfNext(names: seq<string>, values: seq<Cell>, c: nat)
    requires c < |names| == |values|
    ensures forall name :: CellOf(names[..c + 1], values[..c + 1], name) ==
              if names[c] == name then Some(values[c]) else CellOf(names[..c], values[..c], name)
  {
    var names', values' := names[..c + 1], values[..c + 1];
    assert names'[..c] == names[..c] && values'[..c] == values[..c] && |names'| - 1 == c;
    forall name
      ensures CellOf(names', values', name) ==
              if names[c] == name then Some(values[c]) else CellOf(names[..c], values[..c], name)
    {
    }
  }

  method ColumnFromMaps(ghost rows: seq<Row>, rowMaps: seq<map<string, Cell>>, name: string) returns (column: seq<Cell>)
    requires |rowMaps| == |rows| && AllSound(rows)
    requires forall k | 0 <= k < |rows| :: IsRowMap(rows[k], rowMaps[k])
    ensures column == UnionColumn(rows, name)
  {
    column := [];
    for i := 0 to |rowMaps|
      invariant column == UnionColumn(rows, name)[..i]
    {
      assert IsRowMap(rows[i], rowMaps[i]);
      column := column + [if name in rowMaps[i] then rowMaps[i][name] else Nil];
    }
  }

  method ParseDictList(rows: seq<Row>) returns (r: Outcome)
    ensures IsParse(rows, r)
  {
    if |rows| == 0 {
      return Failed(EmptyList);
    }
    if rows[0].NotDict? {
      return Failed(FirstNotDict);
    }
    var fast := ParseUniformRows(rows);
    if fast.Some? {
      return fast.value;
    }
    r := ParseUnionRows(rows);
  }

  // ---- The two paths agree ----

  lemma {:induction false} FirstSeenHasNoRepeat(names: seq<string>)
    ensures NoRepeat(FirstSeen(names)) && |FirstSeen(names)| <= |names|
    ensures forall name :: name in FirstSeen(names) <==> name in names
    ensures FirstSeen(names) == names <==> NoRepeat(names)
    decreases |names|
  {
    if names != [] {
      var n := |names| - 1;
      FirstSeenHasNoRepeat(names[..n]);
      assert names == names[..n] + [names[n]];
    }
  }

  lemma {:induction false} SeenAgain(names: seq<string>, more: seq<string>)
    requires forall name | name in more :: name in names
    ensures FirstSeen(names + more) == FirstSeen(names)
    decreases |more|
  {
    if more == [] {
      assert names + more == names;
    } else {
      var n := |more| - 1;
      SeenAgain(names, more[..n]);
      assert names + more == (names + more[..n]) + [more[n]];
      FirstSeenNext(names + more[..n], more[n]);
      FirstSeenHasNoRepeat(names);
    }
  }

  lemma {:induction false} UniformNames(rows: seq<Row>)
    requires rows != [] && SameNames(rows)
    ensures FirstSeen(AllNames(rows)) == FirstSeen(rows[0].names.value)
    ensures forall name :: name in AllNames(rows) <==> name in rows[0].names.value
    decreases |rows|
  {
    var n := |rows| - 1;
    if n == 0 {
      assert AllNames(rows) == AllNames(rows[..0]) + rows[0].names.value == rows[0].names.value;
    } else {
      UniformNames(rows[..n]);
      SeenAgain(AllNames(rows[..n]), rows[n].names.value);
    }
  }

  lemma {:induction false} CellAtPosition(names: seq<string>, values: seq<Cell>, j: nat)
    requires j < |names| == |values| && NoRepeat(names)
    ensures CellOf(names, values, names[j]) == Some(values[j])
    decreases |names|
  {
    var n := |names| - 1;
    if j < n {
      CellAtPosition(names[..n], values[..n], j);
      assert names[..n][j] == names[j];
    }
  }

  lemma UnionAtPosition(rows: seq<Row>, j: nat)
    requires rows != [] && SameNames(rows) && NoRepeat(rows[0].names.value) && j < |rows[0].names.value|
    ensures UnionColumn(rows, rows[0].names.value[j]) == PositionColumn(rows, j)
  {
    forall i | 0 <= i < |rows| ensures UnionColumn(rows, rows[0].names.value[j])[i] == PositionColumn(rows, j)[i] {
      CellAtPosition(rows[i].names.value, rows[i].values.value, j);
    }
  }

  /** Whether the fast path changes anything can be read off the list: it does exactly when all
      rows have the same keys and these repeat one. */
  lemma FastPathAgreesExactly(rows: seq<Row>, r: Outcome)
    requires IsParse(rows, r)
    ensures IsParseWithoutFastPath(rows, r) <==>
            !(rows != [] && SameNames(rows) && !NoRepeat(rows[0].names.value))
  {
    if rows != [] && SameNames(rows) {
      var names := rows[0].names.value;
      UniformNames(rows);
      FirstSeenHasNoRepeat(names);
      if NoRepeat(names) {
        forall j | 0 <= j < |names| ensures UnionColumn(rows, names[j]) == PositionColumn(rows, j) {
          UnionAtPosition(rows, j);
        }
        assert UnionColumns(rows, names) == PositionColumns(rows);
      } else {
        ShorterWhenRepeated(names);
        assert |r.fields| == |names|;
      }
    }
  }

  lemma {:induction false} ShorterWhenRepeated(names: seq<string>)
    ensures !NoRepeat(names) ==> |FirstSeen(names)| < |names|
    decreases |names|
  {
    if names != [] {
      var n := |names| - 1;
      ShorterWhenRepeated(names[..n]);
      FirstSeenHasNoRepeat(names[..n]);
      assert names == names[..n] + [names[n]];
    }
  }

  /** For lists whose dictionaries repeat no key the two paths are the same parser, first error
      included. */
  lemma RowsWithoutRepeatsParseAlike(rows: seq<Row>, r: Outcome)
    requires IsParse(rows, r)
    requires forall i | 0 <= i < |rows| && Sound(rows[i]) :: NoRepeat(rows[i].names.value)
    ensures IsParseWithoutFastPath(rows, r)
  {
    FastPathAgreesExactly(rows, r);
  }

  function Repeating(a: Cell, b: Cell): seq<Row> {
    [Dict(Success(["k", "k"]), Success([a, b]))]
  }

  lemma FastOnRepeat(a: Cell, b: Cell)
    ensures SameNames(Repeating(a, b))
    ensures Uniform(Repeating(a, b)) == [Field("k", Typed([a])), Field("k", Typed([b]))]
  {
    var rows := Repeating(a, b);
    assert PositionColumn(rows, 0) == [a] && PositionColumn(rows, 1) == [b];
    assert PositionColumns(rows) == [[a], [b]];
  }

  lemma NamesOnRepeat(a: Cell, b: Cell)
    ensures AllSound(Repeating(a, b)) && FirstSeen(AllNames(Repeating(a, b))) == ["k"]
  {
    UniformNames(Repeating(a, b));
    FirstSeenNext(["k"], "k");
    FirstSeenNext([], "k");
    assert ["k", "k"] == ["k"] + ["k"] && [] + ["k"] == ["k"];
  }

  lemma GeneralOnRepeat(a: Cell, b: Cell)
    ensures AllSound(Repeating(a, b))
    ensures Fields(["k"], UnionColumns(Repeating(a, b), ["k"])) == [Field("k", Typed([b]))]
  {
    var rows := Repeating(a, b);
    assert UnionColumn(rows, "k") == [b];
    assert UnionColumns(rows, ["k"]) == [[b]];
  }

  /** A repeated key splits the paths: the fast path has a column for each, the general one only
      the last. */
  lemma RepeatedKeySplitsThePaths(a: Cell, b: Cell, fast: Outcome, general: Outcome)
    requires IsParse(Repeating(a, b), fast) && IsParseWithoutFastPath(Repeating(a, b), general)
    ensures fast == Parsed([Field("k", Typed([a])), Field("k", Typed([b]))])
    ensures general == Parsed([Field("k", Typed([b]))])
  {
    FastOnRepeat(a, b);
    NamesOnRepeat(a, b);
    GeneralOnRepeat(a, b);
  }

  // ---- The shape of the frame ----

  /** The frame of a list without repeated keys: one column for each name, in first-seen order, as
      many cells as rows, and absent exactly where the row lacks the name or its value is nil. */
  lemma ShapeOfTheFrame(rows: seq<Row>, r: Outcome, j: nat, i: nat)
    requires IsParse(rows, r) && r.Parsed?
    requires forall k | 0 <= k < |rows| && Sound(rows[k]) :: NoRepeat(rows[k].names.value)
    requires j < |r.fields| && i < |rows|
    ensures AllSound(rows) && |r.fields| == |FirstSeen(AllNames(rows))|
    ensures r.fields[j].name == FirstSeen(AllNames(rows))[j]
    ensures |r.fields[j].column.elems| == |rows|
    ensures r.fields[j].column.elems[i].Absent? <==>
            (r.fields[j].name !in rows[i].names.value || RowCell(rows[i], r.fields[j].name) == Nil)
  {
    RowsWithoutRepeatsParseAlike(rows, r);
    MissingCell(rows[i].names.value, rows[i].values.value, r.fields[j].name);
  }

  lemma {:induction false} MissingCell(names: seq<string>, values: seq<Cell>, name: string)
    requires |names| == |values|
    ensures CellOf(names, values, name).None? <==> name !in names
    decreases |names|
  {
    if names != [] {
      MissingCell(names[..|names| - 1], values[..|names| - 1], name);
      assert names == names[..|names| - 1] + [names[|names| - 1]];
    }
  }
}
