/** The field names of a keyed table: a name that came before is given a number.  Are the names
    different afterwards? */
module FieldNames {
  import opened Text
  import opened Sequences

  function CountOf(names: seq<string>, name: string): nat {
    if names == [] then 0 else CountOf(names[..|names| - 1], name) + (if names[|names| - 1] == name then 1 else 0)
  }

  predicate Repeats(names: seq<string>, i: nat)
    requires i < |names|
  {
    names[i] in names[..i]
  }

  function Numbered(name: string, k: nat): string {
    name + "_" + Digits(k)
  }

  /** The name that a repeated name is given: the second `x` becomes `x_2`. */
  function Generated(names: seq<string>, i: nat): string
    requires i < |names|
  {
    Numbered(names[i], CountOf(names[..i], names[i]) + 1)
  }

  function Renamed(names: seq<string>): (r: seq<string>)
    ensures |r| == |names|
  {
    seq(|names|, i requires 0 <= i < |names| => if Repeats(names, i) then Generated(names, i) else names[i])
  }

  class Field {
    var name: string

    constructor (name: string)
      ensures this.name == name
    {
      this.name := name;
    }
  }

  ghost function NamesOf(fields: seq<Field>): seq<string>
    reads fields
  {
    seq(|fields|, i requires 0 <= i < |fields| reads fields => fields[i].name)
  }

  lemma {:induction false} CountsRepeats(names: seq<string>, name: string)
    ensures CountOf(names, name) > 0 <==> name in names
    decreases |names|
  {
    if names != [] {
      var but := names[..|names| - 1];
      CountsRepeats(but, name);
      assert names == but + [names[|names| - 1]];
    }
  }

  ghost predicate Counted(seen: map<string, nat>, names: seq<string>) {
    forall x :: (if x in seen then seen[x] else 0) == CountOf(names, x)
  }

  lemma CountedNext(seen: map<string, nat>, names: seq<string>, i: nat)
    requires i < |names| && Counted(seen, names[..i])
    ensures Counted(seen[names[i] := CountOf(names[..i], names[i]) + 1], names[..i + 1])
  {
    assert names[..i + 1][..i] == names[..i];
  }

  lemma RenamedAt(names: seq<string>, i: nat)
    requires i < |names|
    ensures var count := CountOf(names[..i], names[i]);
            Renamed(names)[i] == if count > 0 then Numbered(names[i], count + 1) else names[i]
  {
    CountsRepeats(names[..i], names[i]);
  }

  /** Fields are counted under the names they came with. */
  method MakeFieldNamesUnique(fields: seq<Field>)
    requires NoRepeat(fields)
    modifies fields
    ensures NamesOf(fields) == Renamed(old(NamesOf(fields)))
  {
    var seen: map<string, nat> := map[];
    ghost var names := NamesOf(fields);
    for i := 0 to |fields|
      invariant Counted(seen, names[..i])
      invariant forall j | 0 <= j < i :: fields[j].name == Renamed(names)[j]
      invariant forall j | i <= j < |fields| :: fields[j].name == names[j]
    {
      var name := fields[i].name;
      var count := if name in seen then seen[name] else 0;
      CountedNext(seen, names, i);
      RenamedAt(names, i);
      seen := seen[name := count + 1];
      if count > 0 {
        fields[i].name := Numbered(name, count + 1);
      }
    }
  }

  // ---- Generated names differ ----

  /** The last underscore of a text tells where it was put together. */
  lemma SameParts(a: string, b: string, x: string, y: string)
    requires a + "_" + x == b + "_" + y && Lacks(x, '_') && Lacks(y, '_')
    ensures a == b && x == y
  {
    var s := a + "_" + x;
    NoLaterUnderscore(a, b, x, y);
    NoLaterUnderscore(b, a, y, x);
    assert a == s[..|a|] && b == s[..|b|];
    assert x == s[|a| + 1..] && y == s[|b| + 1..];
  }

  lemma NoLaterUnderscore(a: string, b: string, x: string, y: string)
    requires a + "_" + x == b + "_" + y && Lacks(x, '_')
    ensures |b| <= |a|
  {
    var s := a + "_" + x;
    forall i | |a| < i < |s| ensures s[i] != '_' {
      assert s[i] == x[i - |a| - 1];
    }
    assert s[|b|] == '_';
  }

  lemma NumberedDiffer(a: string, b: string, k: nat, l: nat)
    requires Numbered(a, k) == Numbered(b, l)
    ensures a == b && k == l
  {
    DigitsAreDigits(k);
    DigitsAreDigits(l);
    SameParts(a, b, Digits(k), Digits(l));
    DigitsReadBack(k);
    DigitsReadBack(l);
  }

  lemma {:induction false} CountGrows(names: seq<string>, name: string, i: nat, j: nat)
    requires i <= j <= |names|
    ensures CountOf(names[..i], name) <= CountOf(names[..j], name)
    decreases j
  {
    if i < j {
      CountGrows(names, name, i, j - 1);
      assert names[..j][..j - 1] == names[..j - 1];
    }
  }

  /** Two generated names are never equal. */
  lemma GeneratedDiffer(names: seq<string>, i: nat, j: nat)
    requires i < j < |names|
    ensures Generated(names, i) != Generated(names, j)
  {
    if names[i] == names[j] {
      CountGrows(names, names[i], i + 1, j);
      assert names[..i + 1][..i] == names[..i];
    }
    if Generated(names, i) == Generated(names, j) {
      NumberedDiffer(names[i], names[j], CountOf(names[..i], names[i]) + 1, CountOf(names[..j], names[j]) + 1);
    }
  }

  // ---- When are all names different? ----

  /** A name given to a repeated field is no name that some field came with. */
  ghost predicate NoGeneratedNameTaken(names: seq<string>) {
    forall i | 0 <= i < |names| && Repeats(names, i) :: Generated(names, i) !in names
  }

  lemma {:induction false} KeptSomewhere(names: seq<string>, j: nat) returns (i: nat)
    requires j < |names|
    ensures i <= j && names[i] == names[j] && !Repeats(names, i)
    decreases j
  {
    i := j;
    if Repeats(names, j) {
      var k :| 0 <= k < j && names[k] == names[j];
      i := KeptSomewhere(names, k);
    }
  }

  lemma DifferentAt(names: seq<string>, i: nat, j: nat)
    requires NoGeneratedNameTaken(names) && i < j < |names|
    ensures Renamed(names)[i] != Renamed(names)[j]
  {
    GeneratedDiffer(names, i, j);
    assert Repeats(names, i) ==> Generated(names, i) != names[j];
    assert Repeats(names, j) ==> Generated(names, j) != names[i];
    assert !Repeats(names, j) ==> names[i] != names[j];
  }

  /** All names are different afterwards exactly if no generated name was there before. */
  lemma NamesDifferExactly(names: seq<string>)
    ensures NoRepeat(Renamed(names)) <==> NoGeneratedNameTaken(names)
  {
    if NoGeneratedNameTaken(names) {
      forall i, j | 0 <= i < j < |names| ensures Renamed(names)[i] != Renamed(names)[j] {
        DifferentAt(names, i, j);
      }
    }
    forall i | 0 <= i < |names| && Repeats(names, i) && Generated(names, i) in names
      ensures !NoRepeat(Renamed(names))
    {
      var j :| 0 <= j < |names| && names[j] == Generated(names, i);
      var k := KeptSomewhere(names, j);
      assert Renamed(names)[k] == Renamed(names)[i] && k != i;
    }
  }

  /** Names that are different already stay, and only those. */
  lemma UnchangedExactly(names: seq<string>)
    ensures Renamed(names) == names <==> NoRepeat(names)
  {
    forall i | 0 <= i < |names| ensures Renamed(names)[i] == names[i] <==> !Repeats(names, i) {
      assert |Numbered(names[i], CountOf(names[..i], names[i]) + 1)| > |names[i]|;
    }
    if Renamed(names) == names {
      forall i, j | 0 <= i < j < |names| ensures names[i] != names[j] {
        assert !Repeats(names, j);
      }
    }
  }

  /** A column named like a number given to another. */
  lemma NumberedTwice()
    ensures Renamed(["a", "a", "a_2"]) == ["a", "a_2", "a_2"]
  {
    var names := ["a", "a", "a_2"];
    assert names[..1] == ["a"] && names[..2] == ["a", "a"];
    assert CountOf(["a"], "a") == 1 by { assert ["a"][..0] == []; }
    assert Numbered("a", 2) == "a_2";
    assert |"a"| != |"a_2"|;
    assert Renamed(names)[0] == "a" && Renamed(names)[1] == "a_2" && Renamed(names)[2] == "a_2";
  }

  /** The numbers count the fields of that name. */
  lemma NumberedInOrder()
    ensures Renamed(["a", "a", "a"]) == ["a", "a_2", "a_3"]
  {
    var names := ["a", "a", "a"];
    assert names[..1] == ["a"] && names[..2] == ["a", "a"];
    assert CountOf(["a"], "a") == 1 by { assert ["a"][..0] == []; }
    assert CountOf(["a", "a"], "a") == 2 by { assert ["a", "a"][..1] == ["a"]; }
    assert Renamed(names)[0] == "a" && Renamed(names)[1] == "a_2" && Renamed(names)[2] == "a_3";
  }
}
