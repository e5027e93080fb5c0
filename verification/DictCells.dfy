/** What becomes of each value of a list of dictionaries: its column, its row, and its type. */
module DictCells {
  import opened Wrappers
  import opened ColumnTypes
  import opened Sequences
  import opened DictRows

  // ---- Types ----

  const COLUMN_KINDS := {Kind.Text, Bool, Int16, Int32, Int64, Float32, Float64, Time}
  const NUMBER_KINDS := {Int8, Int16, Int32, Int64, Uint8, Uint16, Uint32, Uint64, Float32, Float64}

  /** All values are of kind `k`; and there is one at least. */
  ghost predicate OneKindOnly(col: seq<Cell>, k: Kind) {
    (exists i | 0 <= i < |col| :: col[i].Value?) && forall i | 0 <= i < |col| && col[i].Value? :: col[i].kind == k
  }

  /** All values are numbers, and not all of one kind. */
  ghost predicate MixedNumbers(col: seq<Cell>) {
    && (forall i | 0 <= i < |col| && col[i].Value? :: col[i].kind in NUMBER_KINDS)
    && exists i, j | 0 <= i < j < |col| && col[i].Value? && col[j].Value? :: col[i].kind != col[j].kind
  }

  lemma ManyKinds(kinds: set<Kind>) returns (a: Kind, b: Kind)
    requires |kinds| >= 2
    ensures a in kinds && b in kinds && a != b
  {
    a :| a in kinds;
    assert |kinds - {a}| == |kinds| - 1;
    b :| b in kinds - {a};
  }

  lemma MixtureMeans(col: seq<Cell>)
    ensures Mixture(Kinds(col)) <==> MixedNumbers(col)
  {
    if Mixture(Kinds(col)) {
      forall i | 0 <= i < |col| && col[i].Value? ensures col[i].kind in NUMBER_KINDS {
        assert col[i].kind in Kinds(col);
      }
      var a, b := ManyKinds(Kinds(col));
      var i :| 0 <= i < |col| && col[i].Value? && col[i].kind == a;
      var j :| 0 <= j < |col| && col[j].Value? && col[j].kind == b;
      assert if i < j then col[i].kind != col[j].kind else col[j].kind != col[i].kind;
    }
    if MixedNumbers(col) {
      var i, j :| 0 <= i < j < |col| && col[i].Value? && col[j].Value? && col[i].kind != col[j].kind;
      TwoKinds(Kinds(col), col[i].kind, col[j].kind);
    }
  }

  lemma NotBoth(col: seq<Cell>, k: Kind)
    requires MixedNumbers(col)
    ensures !OneKindOnly(col, k)
  {
  }

  /** A column whose values have one of the eight kinds keeps them; mixed numbers become float64;
      in all other columns texts stay and everything else is printed.  Nils stay nils. */
  lemma TypedByTheValues(col: seq<Cell>, k: Kind)
    ensures OneKindOnly(col, k) && k in COLUMN_KINDS ==>
              Typed(col).kind == k && forall i | 0 <= i < |col| && col[i].Value? :: Typed(col).elems[i] == Kept(col[i])
    ensures MixedNumbers(col) ==>
              Typed(col).kind == Float64 &&
                forall i | 0 <= i < |col| && col[i].Value? :: Typed(col).elems[i] == Widened(col[i])
    ensures !MixedNumbers(col) && !(exists j :: j in COLUMN_KINDS && OneKindOnly(col, j)) ==>
              Typed(col).kind == Text && forall i | 0 <= i < |col| && col[i].Value? ::
                Typed(col).elems[i] == if col[i].kind == Text then Kept(col[i]) else Printed(col[i])
    ensures |Typed(col).elems| == |col| && (Typed(col).nullable <==> Nil in col)
    ensures forall i | 0 <= i < |col| && col[i].Nil? :: Typed(col).elems[i] == Absent
  {
    MixtureMeans(col);
    if MixedNumbers(col) {
      MixtureWidens(Kinds(col));
      NotBoth(col, k);
    } else if i :| 0 <= i < |col| && col[i].Value? {
      FirstValueDecides(col, i);
      if Supported(col[i].kind) && OneKindOnly(col, col[i].kind) { assert col[i].kind in COLUMN_KINDS; }
    } else {
      NoValuesAsText(col);
    }
  }

  // ---- Places ----

  /** What an element was made of. */
  function Source(e: Elem): Cell {
    match e
    case Absent => Nil
    case Kept(c) => c
    case Widened(c) => c
    case Printed(c) => c
  }

  lemma ElementsAreTheCells(col: seq<Cell>, i: nat)
    requires i < |col|
    ensures |Typed(col).elems| == |col| && Source(Typed(col).elems[i]) == col[i]
  {
  }

  lemma {:induction false} LastOfName(names: seq<string>, values: seq<Cell>, c: nat)
    requires |names| == |values| && c < |names| && forall d | c < d < |names| :: names[d] != names[c]
    ensures CellOf(names, values, names[c]) == Some(values[c])
    decreases |names|
  {
    var n := |names| - 1;
    if c < n {
      LastOfName(names[..n], values[..n], c);
    }
  }

  /** In the general path: the last value of a name in a row is in that name's column, in that row. */
  lemma ValuesAreInTheirColumns(rows: seq<Row>, r: Outcome, i: nat, c: nat)
    requires IsGeneral(rows, r) && r.Parsed? && AllSound(rows)
    requires i < |rows| && c < |rows[i].names.value|
    requires forall d | c < d < |rows[i].names.value| :: rows[i].names.value[d] != rows[i].names.value[c]
    ensures exists j :: 0 <= j < |r.fields| && r.fields[j].name == rows[i].names.value[c]
                        && |r.fields[j].column.elems| == |rows|
                        && Source(r.fields[j].column.elems[i]) == rows[i].values.value[c]
  {
    var names, name := FirstSeen(AllNames(rows)), rows[i].names.value[c];
    FirstSeenHasNoRepeat(AllNames(rows));
    NamesOfRow(rows, i, c);
    assert name in AllNames(rows) && name in names;
    var j :| 0 <= j < |names| && names[j] == name;
    LastOfName(rows[i].names.value, rows[i].values.value, c);
    ElementsAreTheCells(UnionColumn(rows, name), i);
    assert r.fields[j] == Field(name, Typed(UnionColumn(rows, name)));
  }

  /** In the fast path: every value is in the column of its position, in its row. */
  lemma ValuesAreAtTheirPositions(rows: seq<Row>, i: nat, c: nat)
    requires rows != [] && SameNames(rows) && i < |rows| && c < |rows[0].names.value|
    ensures var fields := Uniform(rows);
            && |fields| == |rows[0].names.value| && fields[c].name == rows[0].names.value[c]
            && |fields[c].column.elems| == |rows|
            && Source(fields[c].column.elems[i]) == rows[i].values.value[c]
  {
    ElementsAreTheCells(PositionColumn(rows, c), i);
  }

  // ---- The order of the columns ----

  /** The number of keys in the rows before row `i`. */
  function KeysBefore(rows: seq<Row>, i: nat): nat
    requires AllSound(rows) && i <= |rows|
  {
    if i == 0 then 0 else KeysBefore(rows, i - 1) + |rows[i - 1].names.value|
  }

  lemma {:induction false} KeysCounted(rows: seq<Row>, n: nat, i: nat)
    requires AllSound(rows) && i <= n <= |rows|
    ensures KeysBefore(rows[..n], i) == KeysBefore(rows, i)
    decreases i
  {
    if i > 0 { KeysCounted(rows, n, i - 1); }
  }

  lemma {:induction false} NamesOfRow(rows: seq<Row>, i: nat, c: nat)
    requires AllSound(rows) && i < |rows| && c < |rows[i].names.value|
    ensures |AllNames(rows)| == KeysBefore(rows, |rows|)
    ensures KeysBefore(rows, i) + c < |AllNames(rows)|
            && AllNames(rows)[KeysBefore(rows, i) + c] == rows[i].names.value[c]
    decreases |rows|
  {
    var n := |rows| - 1;
    AllNamesSize(rows);
    if i < n {
      NamesOfRow(rows[..n], i, c);
      KeysCounted(rows, n, i);
    } else {
      AllNamesSize(rows[..n]);
      KeysCounted(rows, n, n);
    }
  }

  lemma {:induction false} AllNamesSize(rows: seq<Row>)
    requires AllSound(rows)
    ensures |AllNames(rows)| == KeysBefore(rows, |rows|)
    decreases |rows|
  {
    if rows != [] {
      AllNamesSize(rows[..|rows| - 1]);
      KeysCounted(rows, |rows| - 1, |rows| - 1);
    }
  }

  lemma OnlyLast(names: seq<string>, n: nat)
    requires n == |names| - 1 && names[n] !in names[..n]
    ensures forall q | 0 <= q < |names| && names[q] == names[n] :: q == n
  {
    forall q | 0 <= q < n ensures names[q] != names[n] {
      assert names[..n][q] == names[q];
    }
  }

  /** Of two columns the left one has a name that was seen before the other one ever was. */
  lemma {:induction false} SeenBefore(names: seq<string>, j: nat, k: nat) returns (p: nat)
    requires j < k < |FirstSeen(names)|
    ensures p < |names| && names[p] == FirstSeen(names)[j]
    ensures forall q | 0 <= q < |names| && names[q] == FirstSeen(names)[k] :: p < q
    decreases |names|
  {
    var n := |names| - 1;
    var before := FirstSeen(names[..n]);
    FirstSeenHasNoRepeat(names[..n]);
    if k < |before| {
      p := SeenBefore(names[..n], j, k);
      assert names[..n][p] == names[p];
      forall q | 0 <= q < |names| && names[q] == FirstSeen(names)[k] ensures p < q {
        if q < n { assert names[..n][q] == names[q]; }
      }
    } else {
      assert before[j] in names[..n];
      p :| 0 <= p < n && names[..n][p] == before[j];
      assert names[p] == before[j];
      OnlyLast(names, n);
    }
  }

  lemma {:induction false} RowOf(rows: seq<Row>, p: nat) returns (i: nat, c: nat)
    requires AllSound(rows) && p < |AllNames(rows)|
    ensures i < |rows| && c < |rows[i].names.value| && p == KeysBefore(rows, i) + c
    decreases |rows|
  {
    var n := |rows| - 1;
    AllNamesSize(rows);
    AllNamesSize(rows[..n]);
    KeysCounted(rows, n, n);
    if p < |AllNames(rows[..n])| {
      i, c := RowOf(rows[..n], p);
      KeysCounted(rows, n, i);
    } else {
      i, c := n, p - |AllNames(rows[..n])|;
    }
  }

  /** Reading row by row, key by key: position `(i, c)` comes before `(i', c')`. */
  predicate Earlier(i: nat, c: nat, i': nat, c': nat) {
    i < i' || (i == i' && c < c')
  }

  lemma {:induction false} KeysGrow(rows: seq<Row>, i: nat, i': nat)
    requires AllSound(rows) && i < i' <= |rows|
    ensures KeysBefore(rows, i) + |rows[i].names.value| <= KeysBefore(rows, i')
    decreases i'
  {
    if i < i' - 1 { KeysGrow(rows, i, i' - 1); }
  }

  /** The columns of the general path are in the order in which their names first appear. */
  lemma ColumnsByFirstAppearance(rows: seq<Row>, r: Outcome, j: nat, k: nat) returns (i: nat, c: nat)
    requires IsGeneral(rows, r) && r.Parsed? && AllSound(rows) && j < k < |r.fields|
    ensures i < |rows| && c < |rows[i].names.value| && rows[i].names.value[c] == r.fields[j].name
    ensures forall i': nat, c': nat | i' < |rows| && c' < |rows[i'].names.value|
              && rows[i'].names.value[c'] == r.fields[k].name ::
              Earlier(i, c, i', c')
  {
    var all := AllNames(rows);
    var p := SeenBefore(all, j, k);
    i, c := RowOf(rows, p);
    NamesOfRow(rows, i, c);
    forall i': nat, c': nat | i' < |rows| && c' < |rows[i'].names.value| && rows[i'].names.value[c'] == r.fields[k].name
      ensures Earlier(i, c, i', c')
    {
      NamesOfRow(rows, i', c');
      if i' < i { KeysGrow(rows, i', i); }
    }
  }

  // ---- Errors ----

  /** What is wrong with a row, looking at it, its keys, its values and their numbers in that order. */
  predicate Wrong(row: Row, i: nat, error: ParseError) {
    match error
    case ItemNotDict(k) => k == i && row.NotDict?
    case ItemKeys(k, text) => k == i && row.Dict? && row.names == Failure(text)
    case ItemValues(k, text) => k == i && row.Dict? && row.names.Success? && row.values == Failure(text)
    case ItemLengthsDiffer(k) =>
      k == i && row.Dict? && row.names.Success? && row.values.Success? && |row.names.value| != |row.values.value|
    case _ => false
  }

  predicate InOrder(row: Row) {
    row.Dict? && row.names.Success? && row.values.Success? && |row.names.value| == |row.values.value|
  }

  /** A list of dictionaries fails exactly if it is empty or has a row that is not in order, and the
      error is that of the first such row. */
  lemma FirstErrorIsReported(rows: seq<Row>, r: Outcome)
    requires IsParse(rows, r)
    ensures r.Failed? <==> rows == [] || exists i | 0 <= i < |rows| :: !InOrder(rows[i])
    ensures rows == [] ==> r == Failed(EmptyList)
    ensures rows != [] && rows[0].NotDict? ==> r == Failed(FirstNotDict)
    ensures rows != [] && rows[0].Dict? && r.Failed? ==>
              exists i: nat :: i < |rows| && Wrong(rows[i], i, r.error) && forall k | 0 <= k < i :: InOrder(rows[k])
  {
    forall i | 0 <= i < |rows| ensures Sound(rows[i]) <==> InOrder(rows[i]) {
    }
    if rows != [] && rows[0].Dict? && r.Failed? {
      var i: nat :| FirstUnsound(rows, i) && RowError(rows[i], i) == Some(r.error);
      assert Wrong(rows[i], i, r.error);
    }
  }
}
