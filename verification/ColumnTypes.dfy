/** Typing a column of decoded cells.  The plugin has two typers, one for columns with nils and
    one for columns without; both are measured against one reference that looks only at the set
    of kinds in the column. */
module ColumnTypes {
  /** Dynamic types of decoded cells; `Other` is any type the typers do not know. */
  datatype Kind =
    | Text | Bool | Time
    | Int8 | Int16 | Int32 | Int64 | Uint8 | Uint16 | Uint32 | Uint64 | Float32 | Float64
    | Other(tag: nat)

  datatype Cell = Nil | Value(kind: Kind, payload: nat)

  /** Elements of typed columns: `Widened` is the float64 of a number, `Printed` the text of a
      value that is not text already.  Conversions stay symbolic. */
  datatype Elem = Absent | Kept(cell: Cell) | Widened(cell: Cell) | Printed(cell: Cell)

  datatype Column = Column(kind: Kind, nullable: bool, elems: seq<Elem>)

  predicate Numeric(k: Kind) {
    !k.Text? && !k.Bool? && !k.Time? && !k.Other?
  }

  /** Kinds that a column can have as they are. */
  predicate Supported(k: Kind) {
    k in {Text, Bool, Int16, Int32, Int64, Float32, Float64, Time}
  }

  function Print(c: Cell): Elem {
    if c.Nil? then Absent else if c.kind == Text then Kept(c) else Printed(c)
  }

  // ---- The reference ----

  datatype Mode = Keep(kind: Kind) | Widen | AsText

  ghost function Kinds(col: seq<Cell>): set<Kind> {
    set i | 0 <= i < |col| && col[i].Value? :: col[i].kind
  }

  /** One supported kind is kept, a mixture of numbers becomes float64, all else becomes text. */
  ghost function ModeOf(kinds: set<Kind>): Mode {
    if exists k :: Supported(k) && kinds == {k} then var k :| Supported(k) && kinds == {k}; Keep(k)
    else if |kinds| >= 2 && forall k | k in kinds :: Numeric(k) then Widen
    else AsText
  }

  function ModeKind(m: Mode): Kind {
    match m case Keep(k) => k case Widen => Float64 case AsText => Text
  }

  function Convert(m: Mode, c: Cell): Elem {
    if c.Nil? then Absent
    else match m case Keep(_) => Kept(c) case Widen => Widened(c) case AsText => Print(c)
  }

  function Converted(m: Mode, col: seq<Cell>): seq<Elem> {
    seq(|col|, i requires 0 <= i < |col| => Convert(m, col[i]))
  }

  ghost function Typed(col: seq<Cell>): Column {
    var m := ModeOf(Kinds(col));
    Column(ModeKind(m), Nil in col, Converted(m, col))
  }

  lemma KindsSplit(col: seq<Cell>, i: nat)
    requires i < |col|
    ensures Kinds(col[..i + 1]) == Kinds(col[..i]) + if col[i].Value? then {col[i].kind} else {}
    ensures Kinds(col[..i + 1]) <= Kinds(col) && (col[i].Value? ==> col[i].kind in Kinds(col))
  {
    assert col[..i + 1] == col[..i] + [col[i]];
    var before, after := Kinds(col[..i]), Kinds(col[..i + 1]);
    forall k | k in after ensures k in before || (col[i].Value? && k == col[i].kind) {
      var j :| 0 <= j < i + 1 && col[j].Value? && col[j].kind == k;
      if j < i { assert col[..i][j].kind == k; }
    }
    forall k | k in before ensures k in after {
      var j :| 0 <= j < i && col[j].Value? && col[j].kind == k;
      assert col[..i + 1][j].kind == k;
    }
    if col[i].Value? { assert col[..i + 1][i].kind == col[i].kind; }
    forall k | k in after ensures k in Kinds(col) {
      var j :| 0 <= j < i + 1 && col[..i + 1][j].Value? && col[..i + 1][j].kind == k;
      assert col[j].kind == k;
    }
  }

  lemma TwoKinds(kinds: set<Kind>, a: Kind, b: Kind)
    requires a in kinds && b in kinds && a != b
    ensures |kinds| >= 2 && forall k :: kinds != {k}
  {
    assert |kinds - {a} - {b}| == |kinds| - 2;
  }

  lemma OneKind(k: Kind)
    ensures |{k}| == 1 && forall j :: {k} == {j} ==> j == k
  {
    forall j | {k} == {j} ensures j == k { assert k in {j}; }
  }

  // ---- The typers ----

  method NumericCellValue(c: Cell) returns (converted: Elem, kind: Kind, ok: bool)
    requires c.Value?
    ensures kind == c.kind && ok == Numeric(c.kind) && (ok ==> converted == Widened(c))
  {
    return Widened(c), c.kind, Numeric(c.kind);
  }

  /** Where the scan for a numeric mixture has come to. */
  ghost predicate Scanned(kinds: set<Kind>, seen: bool, first: Kind, mixed: bool) {
    && (!seen ==> kinds == {} && !mixed)
    && (seen ==> first in kinds && forall k | k in kinds :: Numeric(k))
    && (seen && !mixed ==> kinds == {first})
    && (mixed ==> |kinds| >= 2)
  }

  ghost predicate Mixture(kinds: set<Kind>) {
    |kinds| >= 2 && forall k | k in kinds :: Numeric(k)
  }

  lemma ScanNext(kinds: set<Kind>, seen: bool, first: Kind, mixed: bool, k: Kind)
    requires Scanned(kinds, seen, first, mixed) && Numeric(k)
    ensures var f := if seen then first else k;
            Scanned(kinds + {k}, true, f, mixed || f != k)
  {
    var f := if seen then first else k;
    if f != k { TwoKinds(kinds + {k}, f, k); }
    if mixed { assert |kinds + {k} - kinds| == |kinds + {k}| - |kinds|; }
  }

  lemma ScanDecides(kinds: set<Kind>, seen: bool, first: Kind, mixed: bool)
    requires Scanned(kinds, seen, first, mixed)
    ensures mixed <==> Mixture(kinds)
  {
    if seen && !mixed { OneKind(first); }
  }

  method MixedNumericColumn(col: seq<Cell>) returns (out: seq<Elem>, ok: bool)
    requires Nil !in col
    ensures ok <==> Mixture(Kinds(col))
    ensures ok ==> out == Converted(Widen, col)
  {
    out := [];
    var first: Kind := Text;
    var seen, mixed := false, false;
    assert col[..|col|] == col && Kinds(col[..0]) == {};
    for i := 0 to |col|
      invariant out == Converted(Widen, col[..i])
      invariant Scanned(Kinds(col[..i]), seen, first, mixed)
    {
      KindsSplit(col, i);
      var converted, kind, number := NumericCellValue(col[i]);
      if !number {
        return [], false;
      }
      ScanNext(Kinds(col[..i]), seen, first, mixed, kind);
      if !seen {
        first, seen := kind, true;
      } else if first != kind {
        mixed := true;
      }
      out := out + [converted];
    }
    ScanDecides(Kinds(col), seen, first, mixed);
    return out, mixed;
  }

  method NullableMixedNumericColumn(col: seq<Cell>) returns (out: seq<Elem>, ok: bool)
    ensures ok <==> Mixture(Kinds(col))
    ensures ok ==> out == Converted(Widen, col)
  {
    out := [];
    var first: Kind := Text;
    var seen, mixed := false, false;
    assert col[..|col|] == col && Kinds(col[..0]) == {};
    for i := 0 to |col|
      invariant out == Converted(Widen, col[..i])
      invariant Scanned(Kinds(col[..i]), seen, first, mixed)
    {
      KindsSplit(col, i);
      if col[i].Nil? {
        out := out + [Absent];
        continue;
      }
      var converted, kind, number := NumericCellValue(col[i]);
      if !number {
        return [], false;
      }
      ScanNext(Kinds(col[..i]), seen, first, mixed, kind);
      if !seen {
        first, seen := kind, true;
      } else if first != kind {
        mixed := true;
      }
      out := out + [converted];
    }
    ScanDecides(Kinds(col), seen, first, mixed);
    return out, seen && mixed;
  }

  method StringInterfaceColumn(col: seq<Cell>) returns (out: seq<Elem>)
    ensures out == Converted(AsText, col)
  {
    out := [];
    for i := 0 to |col|
      invariant out == Converted(AsText, col[..i])
    {
      out := out + [Print(col[i])];
    }
    assert col[..|col|] == col;
  }

  /** The eight `typedStringColumn` to `typedTimeColumn`. */
  method TypedColumn(col: seq<Cell>, k: Kind) returns (out: Column)
    requires Nil !in col
    ensures out == if forall i | 0 <= i < |col| :: col[i].kind == k
                   then Column(k, false, Converted(Keep(k), col))
                   else Column(Text, false, Converted(AsText, col))
  {
    var elems := [];
    for i := 0 to |col|
      invariant elems == Converted(Keep(k), col[..i])
      invariant forall j | 0 <= j < i :: col[j].kind == k
    {
      if col[i].kind != k {
        var text := StringInterfaceColumn(col);
        return Column(Text, false, text);
      }
      elems := elems + [Kept(col[i])];
    }
    assert col[..|col|] == col;
    return Column(k, false, elems);
  }

  method NullableTypedColumn(col: seq<Cell>, k: Kind) returns (out: seq<Elem>, ok: bool)
    ensures ok <==> forall i | 0 <= i < |col| && col[i].Value? :: col[i].kind == k
    ensures ok ==> out == Converted(Keep(k), col)
  {
    out := [];
    for i := 0 to |col|
      invariant out == Converted(Keep(k), col[..i])
      invariant forall j | 0 <= j < i && col[j].Value? :: col[j].kind == k
    {
      if col[i].Value? && col[i].kind != k {
        return [], false;
      }
      out := out + [if col[i].Nil? then Absent else Kept(col[i])];
    }
    assert col[..|col|] == col;
    ok := true;
  }

  /** What the first value of a column without a numeric mixture decides. */
  lemma FirstValueDecides(col: seq<Cell>, i: nat)
    requires i < |col| && col[i].Value? && !Mixture(Kinds(col))
    ensures ModeOf(Kinds(col)) ==
            if Supported(col[i].kind) && (forall j | 0 <= j < |col| && col[j].Value? :: col[j].kind == col[i].kind)
            then Keep(col[i].kind) else AsText
  {
    var kinds, k := Kinds(col), col[i].kind;
    assert k in kinds;
    if forall j | 0 <= j < |col| && col[j].Value? :: col[j].kind == k {
      assert kinds == {k};
      OneKind(k);
    } else {
      var j :| 0 <= j < |col| && col[j].Value? && col[j].kind != k;
      TwoKinds(kinds, col[j].kind, k);
    }
  }

  lemma MixtureWidens(kinds: set<Kind>)
    requires Mixture(kinds)
    ensures ModeOf(kinds) == Widen
  {
    if k :| kinds == {k} { OneKind(k); }
  }

  lemma NoValuesAsText(col: seq<Cell>)
    requires forall i | 0 <= i < |col| :: col[i].Nil?
    ensures ModeOf(Kinds(col)) == AsText
  {
    assert Kinds(col) == {};
    forall k ensures Kinds(col) != {k} {
      assert k in {k};
    }
  }

  method NullableInterfaceColumn(col: seq<Cell>) returns (out: Column)
    requires Nil in col
    ensures out == Typed(col)
  {
    var converted, ok := NullableMixedNumericColumn(col);
    if ok {
      MixtureWidens(Kinds(col));
      return Column(Float64, true, converted);
    }
    for i := 0 to |col|
      invariant forall j | 0 <= j < i :: col[j].Nil?
    {
      if col[i].Nil? {
        continue;
      }
      FirstValueDecides(col, i);
      if Supported(col[i].kind) {
        var elems, same := NullableTypedColumn(col, col[i].kind);
        if same {
          return Column(col[i].kind, true, elems);
        }
      }
      var text := StringInterfaceColumn(col);
      return Column(Text, true, text);
    }
    NoValuesAsText(col);
    var text := StringInterfaceColumn(col);
    return Column(Text, true, text);
  }

  method TypedInterfaceColumn(col: seq<Cell>) returns (out: Column)
    ensures out == Typed(col)
  {
    if |col| == 0 {
      NoValuesAsText(col);
      return Column(Text, false, []);
    }
    var hasNil := HasNilValue(col);
    if hasNil {
      out := NullableInterfaceColumn(col);
      return;
    }
    var converted, ok := MixedNumericColumn(col);
    if ok {
      MixtureWidens(Kinds(col));
      return Column(Float64, false, converted);
    }
    assert col[0] in col;
    FirstValueDecides(col, 0);
    if Supported(col[0].kind) {
      out := TypedColumn(col, col[0].kind);
    } else {
      var text := StringInterfaceColumn(col);
      out := Column(Text, false, text);
    }
  }

  method HasNilValue(col: seq<Cell>) returns (found: bool)
    ensures found <==> Nil in col
  {
    for i := 0 to |col|
      invariant Nil !in col[..i]
    {
      if col[i].Nil? {
        return true;
      }
    }
    return false;
  }

  // ---- Properties ----

  function Present(col: seq<Cell>): seq<Cell> {
    if col == [] then [] else (if col[0].Nil? then [] else [col[0]]) + Present(col[1..])
  }

  function PresentElems(elems: seq<Elem>): seq<Elem> {
    if elems == [] then [] else (if elems[0].Absent? then [] else [elems[0]]) + PresentElems(elems[1..])
  }

  lemma KindsPrepended(c: Cell, rest: seq<Cell>)
    ensures Kinds([c] + rest) == Kinds(rest) + if c.Value? then {c.kind} else {}
  {
    var col := [c] + rest;
    forall k | k in Kinds(rest) ensures k in Kinds(col) {
      var j :| 0 <= j < |rest| && rest[j].Value? && rest[j].kind == k;
      assert col[j + 1].kind == k;
    }
    if c.Value? { assert col[0].kind == c.kind; }
    forall k | k in Kinds(col) && (c.Value? ==> k != c.kind) ensures k in Kinds(rest) {
      var j :| 0 <= j < |col| && col[j].Value? && col[j].kind == k;
      assert rest[j - 1].kind == k;
    }
  }

  lemma {:induction false} PresentKinds(col: seq<Cell>)
    ensures Kinds(Present(col)) == Kinds(col)
    decreases |col|
  {
    if col != [] {
      var rest := col[1..];
      PresentKinds(rest);
      assert col == [col[0]] + rest;
      KindsPrepended(col[0], rest);
      if col[0].Nil? {
        assert Present(col) == Present(rest);
      } else {
        KindsPrepended(col[0], Present(rest));
      }
    }
  }

  lemma {:induction false} NoNilPresent(col: seq<Cell>)
    ensures Nil !in Present(col)
    decreases |col|
  {
    if col != [] {
      NoNilPresent(col[1..]);
    }
  }

  lemma {:induction false} PresentConverted(m: Mode, col: seq<Cell>)
    ensures PresentElems(Converted(m, col)) == Converted(m, Present(col))
    decreases |col|
  {
    if col != [] {
      PresentConverted(m, col[1..]);
      assert Converted(m, col)[1..] == Converted(m, col[1..]);
    }
  }

  /** Nullable typing is the pointwise lifting of non-nullable typing: dropping the nils before
      or after gives the same kind and the same elements. */
  lemma DroppingNilsCommutesWithTyping(col: seq<Cell>)
    ensures Typed(Present(col)).kind == Typed(col).kind && !Typed(Present(col)).nullable
    ensures Typed(Present(col)).elems == PresentElems(Typed(col).elems)
  {
    PresentKinds(col);
    NoNilPresent(col);
    PresentConverted(ModeOf(Kinds(col)), col);
  }

  /** The kind does not depend on the order of the cells, and neither does any element. */
  lemma OrderDoesNotMatter(a: seq<Cell>, b: seq<Cell>, i: nat, j: nat)
    requires multiset(a) == multiset(b) && i < |a| && j < |b| && a[i] == b[j]
    ensures Typed(a).kind == Typed(b).kind && Typed(a).elems[i] == Typed(b).elems[j]
  {
    SameKinds(a, b);
    SameKinds(b, a);
    assert Kinds(a) == Kinds(b);
  }

  lemma SameKinds(a: seq<Cell>, b: seq<Cell>)
    requires multiset(a) == multiset(b)
    ensures Kinds(a) <= Kinds(b)
  {
    forall k | k in Kinds(a) ensures k in Kinds(b) {
      var i :| 0 <= i < |a| && a[i].Value? && a[i].kind == k;
      assert a[i] in multiset(b);
      var j :| 0 <= j < |b| && b[j] == a[i];
    }
  }

  ghost predicate AllOfKind(col: seq<Cell>, k: Kind) {
    forall i | 0 <= i < |col| && col[i].Value? :: col[i].kind == k
  }

  ghost predicate AllKept(col: seq<Cell>, out: Column)
    requires |out.elems| == |col|
  {
    forall i | 0 <= i < |col| && col[i].Value? :: out.elems[i] == Kept(col[i]) && col[i].kind == out.kind
  }

  lemma KeptTextWasText(col: seq<Cell>)
    ensures ModeOf(Kinds(col)) == AsText && AllKept(col, Typed(col)) ==> AllOfKind(col, Text)
  {
  }

  /** Nils stay where they are; a column keeps its values as they are exactly when they have one
      common supported kind. */
  lemma ValuesAreKeptExactly(col: seq<Cell>, i: nat)
    requires i < |col| && col[i].Value?
    ensures |Typed(col).elems| == |col|
    ensures forall j | 0 <= j < |col| :: Typed(col).elems[j].Absent? <==> col[j].Nil?
    ensures AllKept(col, Typed(col)) <==> Supported(col[i].kind) && AllOfKind(col, col[i].kind)
  {
    var kinds, k := Kinds(col), col[i].kind;
    if Mixture(kinds) {
      MixtureWidens(kinds);
      assert Typed(col).elems[i] == Widened(col[i]);
      if AllOfKind(col, k) {
        assert kinds == {k};
        OneKind(k);
      }
    } else {
      FirstValueDecides(col, i);
      KeptTextWasText(col);
    }
  }
}
