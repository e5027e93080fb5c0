/** What each macro stands for, wherever it is in a text. */
module PanopticonMacros {
  import opened Text
  import opened Sequences
  import opened Panopticon
  import opened PanopticonTexts

  // ---- The macros and their values ----

  /** What is written in braces. */
  function InBraces(env: Env): seq<(string, string)> {
    [("TimeWindowStart", env.from), ("TimeWindowEnd", env.to), ("Snapshot", env.to), ("FocusTime", env.to),
     ("Start", env.from), ("End", env.to), ("From", env.from), ("To", env.to),
     ("TimeWindowStartText", StringLiteral(env.fromText)), ("TimeWindowEndText", StringLiteral(env.toText)),
     ("SnapshotText", StringLiteral(env.toText)), ("FocusTimeText", StringLiteral(env.toText)),
     ("Interval", LongLiteral(env.intervalNs)), ("IntervalNs", LongLiteral(env.intervalNs)),
     ("IntervalMs", LongLiteral(env.intervalMs)), ("MaxDataPoints", LongLiteral(env.maxDataPoints)),
     ("RefID", StringLiteral(env.refID)), ("OrgID", LongLiteral(env.orgID)),
     ("UserName", StringLiteral(env.userName)), ("UserLogin", StringLiteral(env.userLogin)),
     ("UserEmail", StringLiteral(env.userEmail)), ("DatasourceName", StringLiteral(env.datasourceName)),
     ("DatasourceUID", StringLiteral(env.datasourceUID))]
  }

  /** What is written after a dollar sign. */
  function AfterDollar(env: Env): seq<(string, string)> {
    [("TimeWindowStart", env.from), ("TimeWindowEnd", env.to), ("Snapshot", env.to), ("FocusTime", env.to)]
  }

  lemma TokensAreThese(env: Env)
    ensures Tokens(env) == Written(InBraces(env), AfterDollar(env))
  {
    assert BracedMacros(env) == InBraces(env);
    assert DollarMacros(env) == AfterDollar(env);
  }

  const NAMES := ["TimeWindowStart", "TimeWindowEnd", "Snapshot", "FocusTime", "Start", "End", "From", "To",
                  "TimeWindowStartText", "TimeWindowEndText", "SnapshotText", "FocusTimeText",
                  "Interval", "IntervalNs", "IntervalMs", "MaxDataPoints",
                  "RefID", "OrgID", "UserName", "UserLogin", "UserEmail", "DatasourceName", "DatasourceUID"]

  /** The place of a name in the list, told by its length and a letter or two. */
  function Place(name: string): nat {
    match |name|
    case 2 => 7
    case 3 => 5
    case 4 => 6
    case 5 => if name[0] == 'S' then 4 else if name[0] == 'R' then 16 else 17
    case 8 => if name[0] == 'S' then 2 else if name[0] == 'I' then 12 else 18
    case 9 => if name[0] == 'F' then 3 else if name[8] == 'n' then 19 else 20
    case 10 => if name[8] == 'N' then 13 else 14
    case 12 => 10
    case 13 => if name[0] == 'T' then 1 else if name[0] == 'F' then 11 else if name[0] == 'M' then 15 else 22
    case 14 => 21
    case 15 => 0
    case 17 => 9
    case _ => 8
  }

  lemma NamesHaveTheirPlace()
    ensures |NAMES| == 23 && forall i | 0 <= i < |NAMES| :: Place(NAMES[i]) == i
  {
  }

  lemma NamesDiffer()
    ensures NoRepeat(NAMES)
  {
    NamesHaveTheirPlace();
    forall i, j | 0 <= i < j < |NAMES| ensures NAMES[i] != NAMES[j] {
      assert Place(NAMES[i]) == i && Place(NAMES[j]) == j;
    }
  }

  lemma NamesInBraces(env: Env, i: nat)
    requires i < |NAMES|
    ensures |InBraces(env)| == |NAMES| && InBraces(env)[i].0 == NAMES[i]
  {
  }

  // ---- Which token is found ----

  function BracedToken(name: string): string {
    "{" + name + "}"
  }

  function DollarToken(name: string): string {
    "$" + name
  }

  lemma OnlyOneToken(name: string, other: string, rest: string)
    requires Letters(name) && Letters(other) && name != other
    ensures !(BracedToken(other) <= BracedToken(name) + rest)
  {
    var tok, text := BracedToken(other), BracedToken(name) + rest;
    if |name| == |other| {
      var k :| 0 <= k < |name| && name[k] != other[k];
      NotPrefix(tok, text, k + 1);
    } else {
      var i := 1 + if |name| < |other| then |name| else |other|;
      assert text[i] == if |name| < |other| then '}' else name[i - 1];
      assert tok[i] == if |name| < |other| then other[i - 1] else '}';
      NotPrefix(tok, text, i);
    }
  }

  lemma {:induction false} TokenIsFound(tokens: seq<(string, string)>, text: string, i: nat)
    requires i < |tokens| && tokens[i].0 <= text && forall j | 0 <= j < i :: !(tokens[j].0 <= text)
    ensures FirstToken(tokens, text) == Token(|tokens[i].0|, tokens[i].1)
    decreases i
  {
    if i > 0 {
      assert !(tokens[0].0 <= text);
      TokenIsFound(tokens[1..], text, i - 1);
    }
  }

  lemma BracedIsFound(env: Env, i: nat, rest: string)
    requires i < |NAMES|
    ensures PlainMacro(env, BracedToken(NAMES[i]) + rest) == Token(|BracedToken(NAMES[i])|, InBraces(env)[i].1)
  {
    var tokens, text := Tokens(env), BracedToken(NAMES[i]) + rest;
    TokensAreThese(env);
    NamesInBraces(env, i);
    NamesDiffer();
    BracedNamesAreNames(env);
    assert BracedMacros(env) == InBraces(env);
    forall j | 0 <= j < i ensures !(tokens[j].0 <= text) {
      NamesInBraces(env, j);
      assert IsName(InBraces(env)[j].0) && IsName(InBraces(env)[i].0);
      OnlyOneToken(NAMES[i], NAMES[j], rest);
    }
    TokenIsFound(tokens, text, i);
  }

  // ---- In a text ----

  lemma NoColon(name: string, other: string, rest: string)
    requires Letters(name) && Letters(other)
    ensures !("{" + other + ":" <= BracedToken(name) + rest)
  {
    var tok, text := "{" + other + ":", BracedToken(name) + rest;
    var i := 1 + if |other| < |name| then |other| else |name|;
    assert text[i] == if |other| < |name| then name[i - 1] else '}';
    assert tok[i] == if |other| <= |name| then ':' else other[i - 1];
    NotPrefix(tok, text, i);
  }

  lemma {:induction false} NoFormattedName(names: seq<string>, name: string, rest: string)
    requires Letters(name) && forall i | 0 <= i < |names| :: IsName(names[i])
    ensures FirstName(names, BracedToken(name) + rest) == ""
    decreases |names|
  {
    if names != [] {
      NoColon(name, names[0], rest);
      NoFormattedName(names[1..], name, rest);
    }
  }

  lemma LettersStay(find: string -> Found, name: string, end: string, rest: string)
    requires Proper(find) && Letters(name) && Ordinary(end)
    ensures Scan(find, name + end + rest) == name + end + Scan(find, rest)
  {
    OrdinaryTextStays(find, name + end, rest);
  }

  /** The formatted pass leaves a plain macro as it is. */
  lemma FormattedPassesOver(env: Env, name: string, t: string)
    requires Letters(name)
    ensures Scan(Finder(env, Formatted), BracedToken(name) + t) == BracedToken(name) + Scan(Finder(env, Formatted), t)
  {
    var find := Finder(env, Formatted);
    FinderIsProper(env, Formatted);
    TimeNamesAreNames();
    NoFormattedName(TIME_NAMES, name, t);
    BraceIsKept(find, name, t);
  }

  lemma BraceIsKept(find: string -> Found, name: string, t: string)
    requires Proper(find) && Letters(name) && find(BracedToken(name) + t) == Nothing
    ensures Scan(find, BracedToken(name) + t) == BracedToken(name) + Scan(find, t)
  {
    var text := BracedToken(name) + t;
    assert text[0] == '{' && text[1..] == name + "}" + t;
    ScanStep(find, text);
    LettersStay(find, name, "}", t);
    InFront(name, Scan(find, t));
  }

  lemma InFront(name: string, rest: string)
    ensures ['{'] + (name + "}" + rest) == BracedToken(name) + rest
  {
  }

  /** A token between two texts, where no other one can reach into it. */
  lemma ReplacedBetween(find: string -> Found, a: string, tok: string, value: string, b: string)
    requires Proper(find) && tok != "" && Respects(find, tok[0]) && find(tok + b) == Token(|tok|, value)
    ensures Scan(find, a + tok + b) == Scan(find, a) + value + Scan(find, b)
  {
    Associative(a, tok, b);
    ScanSplits(find, a, tok + b);
    assert Fits(find, tok + b);
    ScanStep(find, tok + b);
    assert (tok + b)[|tok|..] == b;
    Associative(Scan(find, a), value, Scan(find, b));
  }

  /** A macro in braces stands for its value, wherever it is: what is before and after it is expanded
      by itself. */
  lemma BracedMacroInText(env: Env, p: string, i: nat, t: string)
    requires i < |NAMES|
    ensures Expand(env, p + BracedToken(NAMES[i]) + t) == Expand(env, p) + InBraces(env)[i].1 + Expand(env, t)
  {
    var formatted, plain, tok := Finder(env, Formatted), Finder(env, Plain), BracedToken(NAMES[i]);
    var a, b := Scan(formatted, p), Scan(formatted, t);
    FinderIsProper(env, Formatted);
    FinderIsProper(env, Plain);
    NamesAreLetters(env, i);
    Associative(p, tok, t);
    ScanSplits(formatted, p, tok + t);
    FormattedPassesOver(env, NAMES[i], t);
    Associative(a, tok, b);
    BracedIsFound(env, i, b);
    ReplacedBetween(plain, a, tok, InBraces(env)[i].1, b);
  }

  lemma NamesAreLetters(env: Env, i: nat)
    requires i < |NAMES|
    ensures Letters(NAMES[i])
  {
    NamesInBraces(env, i);
    BracedNamesAreNames(env);
    assert BracedMacros(env) == InBraces(env);
    assert IsName(InBraces(env)[i].0);
  }

  // ---- Macros after a dollar sign ----

  const DOLLAR_NAMES := ["TimeWindowStart", "TimeWindowEnd", "Snapshot", "FocusTime"]

  lemma NotTheOther(i: nat, j: nat, rest: string)
    requires j < i < |DOLLAR_NAMES|
    ensures !(DollarToken(DOLLAR_NAMES[j]) <= DollarToken(DOLLAR_NAMES[i]) + rest)
  {
    var at := if i == 1 then 11 else 1;
    NotPrefix(DollarToken(DOLLAR_NAMES[j]), DollarToken(DOLLAR_NAMES[i]) + rest, at);
  }

  lemma DollarIsFound(env: Env, i: nat, rest: string)
    requires i < |DOLLAR_NAMES|
    ensures PlainMacro(env, DollarToken(DOLLAR_NAMES[i]) + rest) ==
            Token(|DollarToken(DOLLAR_NAMES[i])|, AfterDollar(env)[i].1)
  {
    var tokens, text := Tokens(env), DollarToken(DOLLAR_NAMES[i]) + rest;
    TokensAreThese(env);
    NamesInBraces(env, 0);
    NamesHaveTheirPlace();
    forall j | 0 <= j < 23 + i ensures !(tokens[j].0 <= text) {
      if j < 23 {
        NotPrefix(tokens[j].0, text, 0);
      } else {
        NotTheOther(i, j - 23, rest);
      }
    }
    TokenIsFound(tokens, text, 23 + i);
  }

  lemma NothingWithoutBrace(env: Env, text: string)
    requires text != "" && text[0] != '{'
    ensures FormattedMacro(env, text) == Nothing
  {
    TimeNamesAreNames();
    NoNameHere(TIME_NAMES, text);
  }

  /** The formatted pass looks only where a brace is opened. */
  lemma {:induction false} FormattedSkips(env: Env, s: string, rest: string)
    requires Lacks(s, '{')
    ensures Scan(Finder(env, Formatted), s + rest) == s + Scan(Finder(env, Formatted), rest)
    decreases |s|
  {
    var find := Finder(env, Formatted);
    if s == "" {
      assert s + rest == rest;
    } else {
      DropOfConcat(s, rest, 1);
      NothingWithoutBrace(env, s + rest);
      FinderIsProper(env, Formatted);
      assert Fits(find, s + rest);
      ScanStep(find, s + rest);
      FormattedSkips(env, s[1..], rest);
      Associative([s[0]], s[1..], Scan(find, rest));
      assert [s[0]] + s[1..] == s;
    }
  }

  /** A formatted macro begins in `p` at `i` and ends after `p`. */
  ghost predicate StraddlesAt(p: string, q: string, i: int, name: string, layout: string) {
    && 0 <= i < |p| && name in TIME_NAMES && IsLayout(layout)
    && FormattedToken(name, layout) <= p[i..] + q && |FormattedToken(name, layout)| > |p| - i
  }

  ghost predicate Straddles(p: string, q: string) {
    exists i, name, layout :: StraddlesAt(p, q, i, name, layout)
  }

  lemma {:induction false} FirstNameIsThere(names: seq<string>, text: string)
    requires FirstName(names, text) != ""
    ensures FirstName(names, text) in names && "{" + FirstName(names, text) + ":" <= text
    decreases |names|
  {
    if !("{" + names[0] + ":" <= text) { FirstNameIsThere(names[1..], text); }
  }

  lemma {:induction false} RunIsPlain(text: string)
    ensures forall i | 0 <= i < Run(text) :: text[i] != '{' && text[i] != '}'
    decreases |text|
  {
    if text != "" && text[0] != '{' && text[0] != '}' {
      RunIsPlain(text[1..]);
      forall i | 0 <= i < Run(text) ensures text[i] != '{' && text[i] != '}' {
        if i > 0 { assert text[i] == text[1..][i - 1]; }
      }
    }
  }

  /** What the formatted pass finds is a name and a layout in braces. */
  lemma FoundForm(env: Env, text: string) returns (name: string, layout: string)
    requires FormattedMacro(env, text).Token?
    ensures name in TIME_NAMES && IsLayout(layout) && FormattedToken(name, layout) <= text
    ensures FormattedMacro(env, text) ==
            Token(|FormattedToken(name, layout)|, StringLiteral(env.format(IsStart(name), layout)))
  {
    name := FirstName(TIME_NAMES, text);
    FirstNameIsThere(TIME_NAMES, text);
    var rest := text[|name| + 2..];
    RunIsPlain(rest);
    layout := rest[..Run(rest)];
    assert text == "{" + name + ":" + rest;
    TokenRegrouped(text, name, layout, rest);
  }

  lemma TokenRegrouped(text: string, name: string, layout: string, rest: string)
    requires text == "{" + name + ":" + rest && layout + "}" <= rest
    ensures FormattedToken(name, layout) <= text
  {
    assert rest == layout + "}" + rest[|layout| + 1..];
    assert text == FormattedToken(name, layout) + rest[|layout| + 1..];
  }

  /** Without a straddling macro, the formatted pass finds at `p` what it finds with `q` behind it. */
  lemma SameFound(env: Env, p: string, q: string)
    requires p != "" && !Straddles(p, q)
    ensures FormattedMacro(env, p + q) == FormattedMacro(env, p)
    ensures FormattedMacro(env, p).Token? ==> 0 < FormattedMacro(env, p).length <= |p|
  {
    if FormattedMacro(env, p).Token? {
      var name, layout := FoundForm(env, p);
      var tok := FormattedToken(name, layout);
      assert p == tok + p[|tok|..] && p + q == tok + (p[|tok|..] + q);
      FormattedMacroFound(env, name, layout, p[|tok|..] + q);
    } else if FormattedMacro(env, p + q).Token? {
      var name, layout := FoundForm(env, p + q);
      var tok := FormattedToken(name, layout);
      assert p[0..] == p;
      assert !StraddlesAt(p, q, 0, name, layout);
      WithinIsFound(env, p, q, name, layout);
    }
  }

  lemma WithinIsFound(env: Env, p: string, q: string, name: string, layout: string)
    requires name in TIME_NAMES && IsLayout(layout)
    requires FormattedToken(name, layout) <= p + q && |FormattedToken(name, layout)| <= |p|
    ensures FormattedMacro(env, p).Token?
  {
    var tok := FormattedToken(name, layout);
    assert p == tok + p[|tok|..] by { assert (p + q)[..|tok|] == p[..|tok|]; }
    FormattedMacroFound(env, name, layout, p[|tok|..]);
  }

  lemma StillNone(p: string, q: string, n: nat)
    requires !Straddles(p, q) && n <= |p|
    ensures !Straddles(p[n..], q)
  {
    forall i, name, layout ensures !StraddlesAt(p[n..], q, i, name, layout) {
      if 0 <= i < |p| - n { assert p[n..][i..] == p[n + i..]; }
      assert !StraddlesAt(p, q, n + i, name, layout);
    }
  }

  /** Without a straddling macro the formatted pass works on both parts by itself. */
  lemma {:induction false} FormattedSplits(env: Env, p: string, q: string)
    requires !Straddles(p, q)
    ensures Scan(Finder(env, Formatted), p + q) == Scan(Finder(env, Formatted), p) + Scan(Finder(env, Formatted), q)
    decreases |p|
  {
    var find := Finder(env, Formatted);
    if p == "" {
      assert p + q == q;
    } else {
      FinderIsProper(env, Formatted);
      SameFound(env, p, q);
      assert Fits(find, p) && Fits(find, p + q) && find(p + q) == find(p);
      var n := if find(p).Token? then find(p).length else 1;
      var first := if find(p).Token? then find(p).value else [p[0]];
      ScanStep(find, p);
      ScanStep(find, p + q);
      DropOfConcat(p, q, n);
      StillNone(p, q, n);
      FormattedSplits(env, p[n..], q);
      Associative(first, Scan(find, p[n..]), Scan(find, q));
    }
  }

  lemma PlainRespectsDollars(env: Env)
    ensures Respects(Finder(env, Plain), '$')
  {
    forall p, t ensures EndsBefore(Finder(env, Plain), '$', p, t) {
      if p != "" && t != "" && t[0] == '$' { FindIsLocal(env, Plain, p, t); }
    }
  }

  lemma FormattedKeepsDollar(env: Env, p: string, tok: string, t: string)
    requires Lacks(tok, '{') && !Straddles(p, tok + t)
    ensures Scan(Finder(env, Formatted), p + tok + t) ==
            Scan(Finder(env, Formatted), p) + tok + Scan(Finder(env, Formatted), t)
  {
    Associative(p, tok, t);
    FormattedSplits(env, p, tok + t);
    FormattedSkips(env, tok, t);
    Associative(Scan(Finder(env, Formatted), p), tok, Scan(Finder(env, Formatted), t));
  }

  lemma DollarExpands(env: Env, p: string, i: nat, t: string)
    requires i < |DOLLAR_NAMES| && !Straddles(p, DollarToken(DOLLAR_NAMES[i]) + t)
    ensures Expand(env, p + DollarToken(DOLLAR_NAMES[i]) + t) == Expand(env, p) + AfterDollar(env)[i].1 + Expand(env, t)
  {
    var formatted, tok := Finder(env, Formatted), DollarToken(DOLLAR_NAMES[i]);
    FinderIsProper(env, Plain);
    PlainRespectsDollars(env);
    FormattedKeepsDollar(env, p, tok, t);
    DollarIsFound(env, i, Scan(formatted, t));
    ReplacedBetween(Finder(env, Plain), Scan(formatted, p), tok, AfterDollar(env)[i].1, Scan(formatted, t));
  }

  /** A macro that begins before the dollar sign and is not finished there stays open. */
  lemma OpenStaysOpen(env: Env, p: string, q: string, name: string, layout: string)
    requires StraddlesAt(p, q, 0, name, layout)
    ensures Expand(env, p) != "" && Expand(env, p)[0] == '{'
  {
    var plain := Finder(env, Plain);
    OpenIsKept(env, p, q, name, layout);
    NoneWithoutEnd(env, p);
    FinderIsProper(env, Plain);
    assert Fits(plain, p);
    ScanStep(plain, p);
  }

  lemma TokenInside(name: string, layout: string)
    requires name in TIME_NAMES && IsLayout(layout)
    ensures var tok := FormattedToken(name, layout);
            tok[0] == '{' && forall j | 0 < j < |tok| - 1 :: tok[j] != '{' && tok[j] != '}'
  {
    TimeNamesAreNames();
  }

  /** Every macro in braces ends with one. */
  lemma NoneWithoutEnd(env: Env, p: string)
    requires p != "" && p[0] == '{' && Lacks(p, '}')
    ensures FormattedMacro(env, p) == Nothing && PlainMacro(env, p) == Nothing
  {
    if FormattedMacro(env, p).Token? {
      var name, layout := FoundForm(env, p);
      EndsInBrace(FormattedToken(name, layout), p);
    }
    TokensAreThese(env);
    NoPlainWithoutEnd(Tokens(env), p);
  }

  lemma EndsInBrace(tok: string, p: string)
    requires tok <= p && tok != "" && tok[|tok| - 1] == '}'
    ensures !Lacks(p, '}')
  {
    assert p[|tok| - 1] == '}';
  }

  lemma {:induction false} NoPlainWithoutEnd(tokens: seq<(string, string)>, p: string)
    requires p != "" && p[0] == '{' && Lacks(p, '}')
    requires forall i | 0 <= i < |tokens| :: tokens[i].0 != ""
               && (tokens[i].0[0] == '$' || tokens[i].0[|tokens[i].0| - 1] == '}')
    ensures FirstToken(tokens, p) == Nothing
    decreases |tokens|
  {
    if tokens != [] {
      var tok := tokens[0].0;
      if tok[0] == '$' {
        NotPrefix(tok, p, 0);
      } else if |tok| <= |p| {
        NotPrefix(tok, p, |tok| - 1);
      }
      NoPlainWithoutEnd(tokens[1..], p);
    }
  }

  lemma StraddledDiffers(env: Env, p: string, q: string, value: string, rest: string,
                         i: nat, name: string, layout: string)
    requires StraddlesAt(p, q, i, name, layout)
    ensures Expand(env, p + q) != Expand(env, p) + value + rest
  {
    var tok, head, open := FormattedToken(name, layout), p[..i], p[i..];
    var t, plain := (open + q)[|tok|..], Finder(env, Plain);
    assert p == head + open && p + q == head + (open + q) && open + q == tok + t;
    assert p + q == head + tok + t;
    FormattedMacroInText(env, head, name, layout, t);
    assert open[0..] == open && StraddlesAt(open, q, 0, name, layout);
    OpenStaysOpen(env, open, q, name, layout);
    ExpandSplitsAtOpen(env, head, open, q, name, layout);
    LiteralStaysQuoted(env, env.format(IsStart(name), layout));
    var n := |Expand(env, head)|;
    assert Expand(env, p + q)[n] == '\"';
    assert (Expand(env, p) + value + rest)[n] == '{';
  }

  lemma LiteralStaysQuoted(env: Env, s: string)
    ensures Scan(Finder(env, Plain), StringLiteral(s)) != "" && Scan(Finder(env, Plain), StringLiteral(s))[0] == '\"'
  {
    FinderIsProper(env, Plain);
    ScanSkips(Finder(env, Plain), StringLiteral(s));
  }

  lemma ExpandSplitsAtOpen(env: Env, head: string, open: string, q: string, name: string, layout: string)
    requires StraddlesAt(open, q, 0, name, layout)
    ensures Expand(env, head + open) == Expand(env, head) + Expand(env, open)
  {
    var formatted, plain := Finder(env, Formatted), Finder(env, Plain);
    FinderIsProper(env, Formatted);
    FinderIsProper(env, Plain);
    OpenIsKept(env, open, q, name, layout);
    ScanSplits(formatted, head, open);
    ScanSplits(plain, Scan(formatted, head), open);
  }

  lemma OpenHasNoOther(p: string, q: string, name: string, layout: string)
    requires StraddlesAt(p, q, 0, name, layout)
    ensures p[0] == '{' && Lacks(p[1..], '{') && Lacks(p, '}')
  {
    var tok := FormattedToken(name, layout);
    assert p[0..] == p;
    assert forall j | 0 <= j < |p| :: p[j] == tok[j] by { assert (p + q)[..|p|] == p && (p + q)[..|tok|] == tok; }
    TokenInside(name, layout);
  }

  lemma OpenIsKept(env: Env, p: string, q: string, name: string, layout: string)
    requires StraddlesAt(p, q, 0, name, layout)
    ensures p[0] == '{' && Lacks(p[1..], '{') && Lacks(p, '}') && Scan(Finder(env, Formatted), p) == p
  {
    var find := Finder(env, Formatted);
    OpenHasNoOther(p, q, name, layout);
    NoneWithoutEnd(env, p);
    FinderIsProper(env, Formatted);
    assert Fits(find, p);
    ScanStep(find, p);
    assert p[1..] + "" == p[1..];
    FormattedSkips(env, p[1..], "");
    assert ['{'] + p[1..] == p;
  }

  /** A dollar sign in a layout belongs to the layout. */
  lemma DollarInALayout(env: Env)
    ensures Expand(env, "{Start:" + "$Snapshot" + "}") ==
            Scan(Finder(env, Plain), StringLiteral(env.format(true, "$Snapshot")))
    ensures Expand(env, "{Start:" + "$Snapshot" + "}") != Expand(env, "{Start:") + env.to + Expand(env, "}")
  {
    var p, q, tok := "{Start:", "$Snapshot" + "}", FormattedToken("Start", "$Snapshot");
    assert tok == "{Start:" + "$Snapshot" + "}" == p + q;
    assert TIME_NAMES[4] == "Start";
    FormattedMacroInText(env, "", "Start", "$Snapshot", "");
    assert "" + tok + "" == tok && Expand(env, "") == "";
    assert p[0..] == p && StraddlesAt(p, q, 0, "Start", "$Snapshot");
    StraddledDiffers(env, p, q, env.to, Expand(env, "}"), 0, "Start", "$Snapshot");
  }

  /** A macro after a dollar sign stands for its value, and what is before and after it is expanded by
      itself, exactly if no formatted macro begins before it and ends after its dollar sign. */
  lemma DollarMacroInText(env: Env, p: string, i: nat, t: string)
    requires i < |DOLLAR_NAMES|
    ensures Expand(env, p + DollarToken(DOLLAR_NAMES[i]) + t) == Expand(env, p) + AfterDollar(env)[i].1 + Expand(env, t)
            <==> !Straddles(p, DollarToken(DOLLAR_NAMES[i]) + t)
  {
    var q := DollarToken(DOLLAR_NAMES[i]) + t;
    Associative(p, DollarToken(DOLLAR_NAMES[i]), t);
    if Straddles(p, q) {
      var at, name, layout :| StraddlesAt(p, q, at, name, layout);
      StraddledDiffers(env, p, q, AfterDollar(env)[i].1, Expand(env, t), at, name, layout);
    } else {
      DollarExpands(env, p, i, t);
    }
  }

  // ---- Formatted macros ----

  const START_NAMES := {"TimeWindowStart", "Start", "From"}
  const END_NAMES := {"TimeWindowEnd", "Snapshot", "FocusTime", "End", "To"}

  /** A formatted macro renders the start of the time range or its end, by its name. */
  lemma FormattedMacroRenders(env: Env, p: string, name: string, layout: string, t: string)
    requires name in START_NAMES + END_NAMES && IsLayout(layout)
    ensures Expand(env, p + FormattedToken(name, layout) + t) ==
            Expand(env, p) + Scan(Finder(env, Plain), StringLiteral(env.format(name in START_NAMES, layout)))
            + Expand(env, t)
  {
    TimeNamesByEnd(name);
    FormattedMacroInText(env, p, name, layout, t);
  }

  lemma TimeNamesByEnd(name: string)
    requires name in START_NAMES + END_NAMES
    ensures name in TIME_NAMES && (IsStart(name) <==> name in START_NAMES)
  {
    var names := TIME_NAMES;
    assert names[0] == "TimeWindowStart" && names[1] == "TimeWindowEnd"
           && names[2] == "Snapshot" && names[3] == "FocusTime";
    assert names[4] == "Start" && names[5] == "End" && names[6] == "From" && names[7] == "To";
  }

  // ---- Numbers ----

  function LongValue(text: string): int
    requires |text| >= 2
  {
    if text[0] == '-' then -DigitsValue(text[1..|text| - 1]) else DigitsValue(text[..|text| - 1])
  }

  /** A number reads back as what it was made of. */
  lemma LongReadsBack(n: int)
    ensures var text := LongLiteral(n);
            |text| >= 2 && text[|text| - 1] == 'j' && LongValue(text) == n
  {
    var text, digits := LongLiteral(n), Digits(if n < 0 then -n else n);
    DigitsAreDigits(if n < 0 then -n else n);
    DigitsReadBack(if n < 0 then -n else n);
    assert digits[0] != '-';
    assert n < 0 ==> text[1..|text| - 1] == digits;
    assert n >= 0 ==> text[..|text| - 1] == digits && text[0] == digits[0];
  }

  // ---- Wrappers ----

  /** No wrapper but blanks: the text is the expanded query.  Any other wrapper has to have one
      placeholder. */
  lemma WrapperDecides(env: Env, query: string, wrapper: string)
    ensures Trim(wrapper) == "" ==> Compile(env, query, wrapper) == Compiled(Expand(env, query))
    ensures Compile(env, query, wrapper).BadWrapper? <==> Trim(wrapper) != "" && CountQuery(Trim(wrapper)) != 1
  {
  }
}
