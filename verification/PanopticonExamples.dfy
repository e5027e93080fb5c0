/** Macro text that is not what it seems: a user named like the placeholder, and a formatted time
    that is a macro itself. */
module PanopticonExamples {
  import opened Text
  import opened Panopticon
  import opened PanopticonTexts

  // ---- Text that goes wrong ----

  /** A token is found where no earlier one of the list can be. */
  lemma {:induction false} TokenFound(tokens: seq<(string, string)>, text: string, i: nat)
    requires i < |tokens| && |text| >= 2 && tokens[i].0 <= text
    requires forall j | 0 <= j < i :: |tokens[j].0| >= 2 && (tokens[j].0[0] != text[0] || tokens[j].0[1] != text[1])
    ensures FirstToken(tokens, text) == Token(|tokens[i].0|, tokens[i].1)
    decreases i
  {
    if i > 0 {
      assert !(tokens[0].0 <= text);
      TokenFound(tokens[1..], text, i - 1);
    }
  }

  const USER_NAME: nat := 18

  lemma UserNameIsFound(env: Env, rest: string)
    ensures PlainMacro(env, "{UserName}" + rest) == Token(10, StringLiteral(env.userName))
  {
    var tokens, braced, text := Tokens(env), BracedMacros(env), "{UserName}" + rest;
    assert braced[USER_NAME] == ("UserName", StringLiteral(env.userName));
    BracedNamesAreNames(env);
    EarlierInitials(env);
    assert tokens[USER_NAME].0 == "{UserName}";
    assert text[..10] == "{UserName}" && text[1] == 'U';
    TokenFound(tokens, text, USER_NAME);
  }

  lemma EarlierInitials(env: Env)
    ensures forall i | 0 <= i < USER_NAME :: BracedMacros(env)[i].0 != "" && BracedMacros(env)[i].0[0] != 'U'
  {
  }

  lemma {:induction false} NoSuchInitial(names: seq<string>, text: string)
    requires |text| >= 2 && forall i | 0 <= i < |names| :: IsName(names[i]) && names[i][0] != text[1]
    ensures FirstName(names, text) == ""
    decreases |names|
  {
    if names != [] {
      var tok := "{" + names[0] + ":";
      assert tok[1] == names[0][0];
      NotPrefix(tok, text, 1);
      NoSuchInitial(names[1..], text);
    }
  }

  lemma {:induction false} NothingToEscape(s: string)
    requires forall i | 0 <= i < |s| :: EscapeChar(s[i]) == [s[i]]
    ensures Escape(s) == s
    decreases |s|
  {
    if s != "" {
      NothingToEscape(s[1..]);
      assert [s[0]] + s[1..] == s;
    }
  }

  lemma ScanFinds(find: string -> Found, text: string, n: nat, value: string)
    requires 0 < n <= |text| && find(text) == Token(n, value)
    ensures Scan(find, text) == value + Scan(find, text[n..])
  {
  }

  lemma ScanMovesOn(find: string -> Found, text: string)
    requires text != "" && find(text) == Nothing
    ensures Scan(find, text) == [text[0]] + Scan(find, text[1..])
  {
  }

  const NAME := "{UserName}"

  lemma NameIsNotFormatted(env: Env)
    ensures FormattedMacro(env, NAME) == Nothing
  {
    TimeNamesAreNames();
    NoSuchInitial(TIME_NAMES, NAME);
  }

  lemma NamePasses(find: string -> Found)
    requires Proper(find) && find(NAME) == Nothing
    ensures Scan(find, NAME) == NAME
  {
    var inner := "UserName}";
    ScanMovesOn(find, NAME);
    assert NAME[1..] == inner == inner + "";
    OrdinaryTextStays(find, inner, "");
    assert ['{'] + inner == NAME;
  }

  lemma NameExpands(env: Env)
    ensures Expand(env, NAME) == StringLiteral(env.userName)
  {
    var formatted, plain := Finder(env, Formatted), Finder(env, Plain);
    FinderIsProper(env, Formatted);
    NameIsNotFormatted(env);
    assert formatted(NAME) == Nothing;
    NamePasses(formatted);
    UserNameIsFound(env, "");
    assert NAME + "" == NAME;
    ScanFinds(plain, NAME, 10, StringLiteral(env.userName));
  }

  lemma LiteralOfPlaceholder()
    ensures StringLiteral(QUERY) == "\"" + QUERY + "\""
  {
    LiteralOf(QUERY);
  }

  lemma LiteralOf(s: string)
    requires forall i | 0 <= i < |s| :: EscapeChar(s[i]) == [s[i]]
    ensures StringLiteral(s) == "\"" + s + "\""
  {
    NothingToEscape(s);
  }

  lemma LetterInQuotes()
    ensures "\"" + "x" + "\"" + QUERY + "" == "\"x\"{Query}"
  {
  }

  lemma NothingToTrim(s: string)
    requires s != "" && !IsSpace(s[0]) && !IsSpace(s[|s| - 1])
    ensures Trim(s) == s
  {
  }

  lemma NameHasNoPlaceholder()
    ensures CountQuery(NAME) == 0
  {
    var inner := "UserName}";
    assert NAME[1] == 'U' && !(QUERY <= NAME) && NAME[1..] == inner;
    NoBraceNoPlaceholder(inner);
  }

  lemma WrapperText()
    ensures "{UserName}{Query}" == NAME + QUERY + ""
    ensures Trim("{UserName}{Query}") == "{UserName}{Query}"
  {
    NothingToTrim("{UserName}{Query}");
  }

  lemma WrapperOfName()
    ensures Trim("{UserName}{Query}") == NAME + QUERY + "" && CountQuery(NAME + QUERY + "") == 1
  {
    WrapperText();
    NameHasNoPlaceholder();
    CountOfOne(NAME);
  }

  lemma LetterIntoName(env: Env, wrapper: string)
    requires Trim(wrapper) == NAME + QUERY + "" && CountQuery(Trim(wrapper)) == 1
    requires Expand(env, NAME) == StringLiteral(QUERY)
    ensures Compile(env, "x", wrapper) == Compiled("\"x\"{Query}")
  {
    LiteralOfPlaceholder();
    NoBraceNoPlaceholder("\"");
    CompiledIntoMacroText(env, "x", wrapper, NAME, "", "\"", "\"");
    LetterStays(env);
    LetterInQuotes();
    assert Expand(env, "") == "";
  }

  /** A user may be named like the placeholder: then the query ends up in the name. */
  lemma UserNamedLikeThePlaceholder(env: Env)
    requires env.userName == QUERY
    ensures Compile(env, "x", "{UserName}{Query}") == Compiled("\"x\"{Query}")
  {
    WrapperOfName();
    NameExpands(env);
    LetterIntoName(env, "{UserName}{Query}");
  }

  lemma {:induction false} CountOfOne(p: string)
    requires CountQuery(p) == 0
    ensures CountQuery(p + QUERY + "") == 1
    decreases |p|
  {
    var text := p + QUERY + "";
    if p == "" {
      assert text == QUERY && text[|QUERY|..] == "";
    } else {
      assert text == p + (QUERY + "");
      PrefixIsLocal(QUERY, p, QUERY + "");
      assert text[1..] == p[1..] + QUERY + "";
      CountOfOne(p[1..]);
    }
  }

  // ---- Formatted macros ----

  const SNAPSHOT: nat := 25

  lemma DollarInitials(env: Env)
    ensures |BracedMacros(env)| == 23 && DollarMacros(env)[2] == ("Snapshot", env.to)
    ensures DollarMacros(env)[0].0[0] == 'T' && DollarMacros(env)[1].0[0] == 'T'
  {
  }

  lemma SnapshotIsFound(env: Env, rest: string)
    ensures PlainMacro(env, "$Snapshot" + rest) == Token(9, env.to)
  {
    var tokens, text := Tokens(env), "$Snapshot" + rest;
    DollarInitials(env);
    BracedNamesAreNames(env);
    assert tokens[SNAPSHOT] == ("$" + "Snapshot", env.to) && "$" + "Snapshot" == "$Snapshot";
    assert text[0] == '$' && text[1] == 'S' && text[..9] == "$Snapshot";
    forall j | 0 <= j < SNAPSHOT
      ensures |tokens[j].0| >= 2 && (tokens[j].0[0] != text[0] || tokens[j].0[1] != text[1])
    {
      if j < 23 {
        assert tokens[j].0 == "{" + BracedMacros(env)[j].0 + "}";
      } else {
        assert tokens[j].0 == "$" + DollarMacros(env)[j - 23].0;
      }
    }
    TokenFound(tokens, text, SNAPSHOT);
  }

  lemma SnapshotInQuotes(find: string -> Found, value: string)
    requires Proper(find) && find("$Snapshot" + "\"") == Token(9, value)
    ensures Scan(find, "\"" + "$Snapshot" + "\"") == "\"" + value + "\""
  {
    var text, inner := "\"" + "$Snapshot" + "\"", "$Snapshot" + "\"";
    Associative("\"", "$Snapshot", "\"");
    assert text[1..] == inner;
    ScanSkips(find, text);
    ScanFinds(find, inner, 9, value);
    assert inner[9..] == "\"" == "\"" + "";
    OrdinaryTextStays(find, "\"", "");
  }

  lemma LiteralOfSnapshot()
    ensures StringLiteral("$Snapshot") == "\"" + "$Snapshot" + "\""
  {
    LiteralOf("$Snapshot");
  }

  lemma SnapshotInLiteral(find: string -> Found, value: string)
    requires Proper(find) && find("$Snapshot" + "\"") == Token(9, value)
    ensures Scan(find, StringLiteral("$Snapshot")) == "\"" + value + "\""
  {
    LiteralOfSnapshot();
    SnapshotInQuotes(find, value);
  }

  /** A layout that renders as a macro is expanded a second time. */
  lemma MacroInFormattedTextIsExpanded(env: Env, p: string, name: string, layout: string, t: string)
    requires name in TIME_NAMES && IsLayout(layout) && env.format(IsStart(name), layout) == "$Snapshot"
    ensures Expand(env, p + FormattedToken(name, layout) + t) ==
            Expand(env, p) + ("\"" + env.to + "\"") + Expand(env, t)
  {
    FormattedMacroInText(env, p, name, layout, t);
    FinderIsProper(env, Plain);
    SnapshotIsFound(env, "\"");
    SnapshotInLiteral(Finder(env, Plain), env.to);
  }
}
