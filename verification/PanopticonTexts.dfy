/** What the texts that macros stand for do to a scan: when a formatted time is scanned a second
    time without harm, and when a macro's text takes the query away from the placeholder. */
module PanopticonTexts {
  import opened Text
  import opened Panopticon

  // ---- Values ----

  /** A value begins like no macro, and has no end in common with the placeholder. */
  predicate Sealed(v: string) {
    v != "" && v[0] !in QUERY && v[0] != '$' && v[|v| - 1] !in QUERY
  }

  ghost predicate IsLiteral(v: string) {
    exists text :: v == StringLiteral(text)
  }

  ghost predicate Rendered(v: string) {
    Sealed(v) && (IsLiteral(v) || Lacks(v, '{'))
  }

  predicate IsTimestamp(s: string) {
    s != "" && forall i | 0 <= i < |s| :: s[i] in "0123456789.:-DNp"
  }

  /** What rendering a time as a q timestamp promises. */
  predicate TimesAreTimestamps(env: Env) {
    IsTimestamp(env.from) && IsTimestamp(env.to)
  }

  lemma TimestampsAreRendered(s: string)
    requires IsTimestamp(s)
    ensures Rendered(s)
  {
  }

  lemma LiteralsAreRendered(text: string)
    ensures Rendered(StringLiteral(text))
  {
  }

  lemma LongsAreRendered(n: int)
    ensures Rendered(LongLiteral(n))
  {
    DigitsAreDigits(if n < 0 then -n else n);
    assert Lacks(LongLiteral(n), '{');
  }

  ghost predicate AllRendered(macros: seq<(string, string)>) {
    forall i | 0 <= i < |macros| :: Rendered(macros[i].1)
  }

  lemma TimeMacroValues(env: Env)
    ensures forall i | 0 <= i < |TimeMacros(env)| :: TimeMacros(env)[i].1 == env.from || TimeMacros(env)[i].1 == env.to
  {
  }

  lemma TimeMacrosRendered(env: Env)
    requires TimesAreTimestamps(env)
    ensures AllRendered(TimeMacros(env))
  {
    TimeMacroValues(env);
    TimestampsAreRendered(env.from);
    TimestampsAreRendered(env.to);
  }

  lemma TextMacrosRendered(env: Env)
    ensures AllRendered(TextMacros(env))
  {
    LiteralsAreRendered(env.fromText);
    LiteralsAreRendered(env.toText);
  }

  lemma NumberMacrosRendered(env: Env)
    ensures AllRendered(NumberMacros(env))
  {
    LongsAreRendered(env.intervalNs);
    LongsAreRendered(env.intervalMs);
    LongsAreRendered(env.maxDataPoints);
  }

  lemma ContextMacrosRendered(env: Env)
    ensures AllRendered(ContextMacros(env))
  {
    LiteralsAreRendered(env.refID);
    LongsAreRendered(env.orgID);
    LiteralsAreRendered(env.userName);
    LiteralsAreRendered(env.userLogin);
    LiteralsAreRendered(env.userEmail);
    LiteralsAreRendered(env.datasourceName);
    LiteralsAreRendered(env.datasourceUID);
  }

  lemma TokensRendered(env: Env)
    requires TimesAreTimestamps(env)
    ensures AllRendered(Tokens(env))
  {
    TimeMacrosRendered(env);
    TextMacrosRendered(env);
    NumberMacrosRendered(env);
    ContextMacrosRendered(env);
    assert AllRendered(BracedMacros(env));
    assert AllRendered(DollarMacros(env));
  }

  lemma {:induction false} FoundIsRendered(tokens: seq<(string, string)>, text: string)
    requires AllRendered(tokens) && FirstToken(tokens, text).Token?
    ensures Rendered(FirstToken(tokens, text).value)
    decreases |tokens|
  {
    if !(tokens[0].0 <= text) { FoundIsRendered(tokens[1..], text); }
  }

  ghost predicate RendersAt(find: string -> Found, text: string) {
    find(text).Token? ==> Rendered(find(text).value)
  }

  ghost predicate Renders(find: string -> Found) {
    forall text :: RendersAt(find, text)
  }

  lemma FinderRenders(env: Env, pass: Pass)
    requires pass.Plain? ==> TimesAreTimestamps(env)
    ensures Renders(Finder(env, pass))
  {
    var find := Finder(env, pass);
    forall text ensures RendersAt(find, text) {
      if pass.Plain? {
        TokensRendered(env);
        if PlainMacro(env, text).Token? { FoundIsRendered(Tokens(env), text); }
      } else {
        var name := FirstName(TIME_NAMES, text);
        if name != "" && |text| >= |name| + 2 { LayoutIsRendered(env, name, text[|name| + 2..]); }
      }
    }
  }

  lemma LayoutIsRendered(env: Env, name: string, rest: string)
    ensures LayoutToken(env, name, rest).Token? ==> Rendered(LayoutToken(env, name, rest).value)
  {
    LiteralsAreRendered(env.format(IsStart(name), rest[..Run(rest)]));
  }

  // ---- When a scan changes nothing ----

  ghost predicate NothingFound(find: string -> Found, s: string) {
    forall i | 0 <= i < |s| :: find(s[i..]) == Nothing
  }

  lemma NothingFoundStep(find: string -> Found, s: string)
    requires s != ""
    ensures NothingFound(find, s) <==> find(s) == Nothing && NothingFound(find, s[1..])
  {
    assert s[0..] == s;
    if find(s) == Nothing && NothingFound(find, s[1..]) {
      forall i | 0 <= i < |s| ensures find(s[i..]) == Nothing {
        if i > 0 { assert s[i..] == s[1..][i - 1..]; }
      }
    }
    if NothingFound(find, s) {
      forall i | 0 <= i < |s| - 1 ensures find(s[1..][i..]) == Nothing {
        assert s[1..][i..] == s[i + 1..];
      }
    }
  }

  /** A pass leaves a text alone exactly if it finds nothing anywhere in it. */
  lemma {:induction false} ScanLeavesExactly(find: string -> Found, s: string)
    requires Proper(find) && Renders(find)
    ensures Scan(find, s) == s <==> NothingFound(find, s)
    decreases |s|
  {
    if s != "" {
      NothingFoundStep(find, s);
      assert Fits(find, s) && PassesOver(find, s) && RendersAt(find, s);
      ScanStep(find, s);
      if find(s) == Nothing {
        ScanLeavesExactly(find, s[1..]);
        assert ([s[0]] + Scan(find, s[1..]))[1..] == Scan(find, s[1..]);
        assert [s[0]] + s[1..] == s;
      } else {
        assert Scan(find, s)[0] == find(s).value[0];
      }
    }
  }

  // ---- Quotes ----

  lemma PlainRespectsQuotes(env: Env)
    ensures Respects(Finder(env, Plain), '\"')
  {
    forall p, t ensures EndsBefore(Finder(env, Plain), '\"', p, t) {
      if p != "" && t != "" && t[0] == '\"' { FindIsLocal(env, Plain, p, t); }
    }
  }

  /** Characters of tokens are not escaped. */
  predicate IsBare(tok: string) {
    forall i | 0 <= i < |tok| :: IsLetter(tok[i]) || tok[i] == '{' || tok[i] == '}' || tok[i] == '$'
  }

  lemma {:induction false} EscapingKeepsTokens(tok: string, s: string)
    requires IsBare(tok)
    ensures tok <= Escape(s) + "\"" <==> tok <= s
    decreases |tok|
  {
    if tok == "" {
    } else if s == "" {
      NotPrefix(tok, "\"", 0);
    } else {
      var tail := Escape(s[1..]) + "\"";
      Associative(EscapeChar(s[0]), Escape(s[1..]), "\"");
      if EscapeChar(s[0]) == [s[0]] {
        EscapingKeepsTokens(tok[1..], s[1..]);
        FirstThenRest(tok, s[0], tail);
        FirstThenRest(tok, s[0], s[1..]);
        assert [s[0]] + s[1..] == s;
      } else {
        NotPrefix(tok, Escape(s) + "\"", 0);
        NotPrefix(tok, s, 0);
      }
    }
  }

  lemma FirstThenRest(tok: string, c: char, rest: string)
    requires tok != ""
    ensures tok <= [c] + rest <==> tok[0] == c && tok[1..] <= rest
  {
    if tok[0] == c && tok[1..] <= rest {
      assert tok == [c] + tok[1..] && ([c] + rest)[..|tok|] == [c] + rest[..|tok| - 1];
    }
    if tok <= [c] + rest {
      assert tok[1..] == ([c] + rest)[..|tok|][1..] == rest[..|tok| - 1];
    }
  }

  lemma {:induction false} SameTokenEscaped(tokens: seq<(string, string)>, s: string)
    requires forall i | 0 <= i < |tokens| :: IsToken(tokens[i].0)
    ensures FirstToken(tokens, Escape(s) + "\"") == FirstToken(tokens, s)
    decreases |tokens|
  {
    if tokens != [] {
      EscapingKeepsTokens(tokens[0].0, s);
      SameTokenEscaped(tokens[1..], s);
    }
  }

  lemma SameFoundEscaped(env: Env, s: string)
    ensures Find(env, Plain, Escape(s) + "\"") == Find(env, Plain, s)
  {
    TokensAreTokens(env);
    SameTokenEscaped(Tokens(env), s);
  }

  lemma NothingFoundAtEnd(find: string -> Found)
    requires Proper(find)
    ensures NothingFound(find, "\"")
  {
    assert PassesOver(find, "\"");
  }

  /** Nothing is found in the second character of an escape. */
  lemma EscapedStep(find: string -> Found, c: char, tail: string)
    requires Proper(find)
    ensures NothingFound(find, EscapeChar(c) + tail) <==>
              find(EscapeChar(c) + tail) == Nothing && NothingFound(find, tail)
  {
    var text := EscapeChar(c) + tail;
    NothingFoundStep(find, text);
    if EscapeChar(c) == [c] {
      assert text[1..] == tail;
    } else {
      assert text[1..][1..] == tail;
      assert PassesOver(find, text[1..]);
      NothingFoundStep(find, text[1..]);
    }
  }

  /** Escaping neither makes nor hides a macro. */
  lemma {:induction false} NothingFoundEscaped(env: Env, s: string)
    ensures NothingFound(Finder(env, Plain), Escape(s) + "\"") <==> NothingFound(Finder(env, Plain), s)
    decreases |s|
  {
    var find := Finder(env, Plain);
    FinderIsProper(env, Plain);
    if s == "" {
      assert Escape(s) + "\"" == "\"";
      NothingFoundAtEnd(find);
    } else {
      SameFoundEscaped(env, s);
      NothingFoundEscaped(env, s[1..]);
      NothingFoundStep(find, s);
      Associative(EscapeChar(s[0]), Escape(s[1..]), "\"");
      EscapedStep(find, s[0], Escape(s[1..]) + "\"");
    }
  }

  lemma NothingFoundInLiteral(env: Env, s: string)
    ensures NothingFound(Finder(env, Plain), StringLiteral(s)) <==> NothingFound(Finder(env, Plain), s)
  {
    var find := Finder(env, Plain);
    FinderIsProper(env, Plain);
    Associative("\"", Escape(s), "\"");
    assert StringLiteral(s)[1..] == Escape(s) + "\"" && PassesOver(find, StringLiteral(s));
    NothingFoundStep(find, StringLiteral(s));
    NothingFoundEscaped(env, s);
  }

  /** A quoted text is scanned by itself, whatever is around it. */
  lemma QuotedIsScannedAlone(find: string -> Found, a: string, s: string, b: string)
    requires Proper(find) && Respects(find, '\"')
    ensures Scan(find, a + StringLiteral(s) + b) == Scan(find, a) + Scan(find, StringLiteral(s)) + Scan(find, b)
  {
    var body := "\"" + Escape(s);
    assert a + StringLiteral(s) + b == (a + body) + ("\"" + b);
    assert StringLiteral(s) == body + "\"";
    ScanSplits(find, a + body, "\"" + b);
    ScanSplits(find, a, body);
    ScanSplits(find, body, "\"");
    OrdinaryTextStays(find, "\"", b);
    OrdinaryTextStays(find, "\"", "");
    assert "\"" + "" == "\"";
  }

  // ---- Formatted macros ----

  predicate IsLayout(layout: string) {
    layout != "" && forall i | 0 <= i < |layout| :: layout[i] != '{' && layout[i] != '}'
  }

  function FormattedToken(name: string, layout: string): string {
    "{" + name + ":" + layout + "}"
  }

  lemma {:induction false} RunOfLayout(layout: string, t: string)
    requires forall i | 0 <= i < |layout| :: layout[i] != '{' && layout[i] != '}'
    ensures Run(layout + "}" + t) == |layout|
    decreases |layout|
  {
    if layout == "" {
      assert layout + "}" + t == "}" + t;
    } else {
      assert (layout + "}" + t)[1..] == layout[1..] + "}" + t;
      RunOfLayout(layout[1..], t);
    }
  }

  /** Different names are different up to the colon. */
  lemma OnlyOneName(name: string, other: string, rest: string)
    requires Letters(name) && Letters(other) && |name| != |other|
    ensures !("{" + other + ":" <= "{" + name + ":" + rest)
  {
    var tok, text := "{" + other + ":", "{" + name + ":" + rest;
    var i := 1 + if |name| < |other| then |name| else |other|;
    assert text[i] == if |name| < |other| then ':' else name[i - 1];
    assert tok[i] == if |name| < |other| then other[i - 1] else ':';
    NotPrefix(tok, text, i);
  }

  lemma {:induction false} NameFound(names: seq<string>, name: string, rest: string)
    requires name in names
             && forall i | 0 <= i < |names| :: Letters(names[i]) && (|names[i]| == |name| ==> names[i] == name)
    ensures FirstName(names, "{" + name + ":" + rest) == name
    decreases |names|
  {
    if names[0] == name {
      assert "{" + name + ":" <= "{" + name + ":" + rest;
    } else {
      OnlyOneName(name, names[0], rest);
      NameFound(names[1..], name, rest);
    }
  }

  lemma TimeNamesDiffer(name: string)
    requires name in TIME_NAMES
    ensures name != "" && forall i | 0 <= i < |TIME_NAMES| :: |TIME_NAMES[i]| == |name| ==> TIME_NAMES[i] == name
  {
  }

  lemma FormattedMacroFound(env: Env, name: string, layout: string, t: string)
    requires name in TIME_NAMES && IsLayout(layout)
    ensures FormattedMacro(env, FormattedToken(name, layout) + t) ==
            Token(|FormattedToken(name, layout)|, StringLiteral(env.format(IsStart(name), layout)))
  {
    var text, rest := FormattedToken(name, layout) + t, layout + "}" + t;
    assert text == "{" + name + ":" + rest;
    TimeNamesAreNames();
    TimeNamesDiffer(name);
    NameFound(TIME_NAMES, name, rest);
    assert text[|name| + 2..] == rest;
    RunOfLayout(layout, t);
    assert rest[..|layout|] == layout && rest[|layout|] == '}';
  }

  /** A formatted macro anywhere in a text stands for its rendered time, which is scanned for plain
      macros by itself. */
  lemma FormattedMacroInText(env: Env, p: string, name: string, layout: string, t: string)
    requires name in TIME_NAMES && IsLayout(layout)
    ensures Expand(env, p + FormattedToken(name, layout) + t) ==
            Expand(env, p) + Scan(Finder(env, Plain), StringLiteral(env.format(IsStart(name), layout))) + Expand(env, t)
  {
    var formatted, plain := Finder(env, Formatted), Finder(env, Plain);
    var tok, time := FormattedToken(name, layout), env.format(IsStart(name), layout);
    FinderIsProper(env, Formatted);
    FinderIsProper(env, Plain);
    PlainRespectsQuotes(env);
    FormattedMacroFound(env, name, layout, t);
    assert p + tok + t == p + (tok + t) && (tok + t)[|tok|..] == t;
    ScanSplits(formatted, p, tok + t);
    assert Fits(formatted, tok + t);
    ScanStep(formatted, tok + t);
    Associative(Scan(formatted, p), StringLiteral(time), Scan(formatted, t));
    QuotedIsScannedAlone(plain, Scan(formatted, p), time, Scan(formatted, t));
  }

  lemma SameMiddle(a: string, m: string, m': string, b: string)
    ensures a + m + b == a + m' + b <==> m == m'
  {
    if a + m + b == a + m' + b {
      assert |m| == |m'|;
      assert m == (a + m + b)[|a|..|a| + |m|];
      assert m' == (a + m' + b)[|a|..|a| + |m'|];
    }
  }

  /** A formatted macro is expanded just once, to the literal of the rendered time, exactly if the
      rendered time has no plain macro in it. */
  lemma FormattedOnceExactly(env: Env, p: string, name: string, layout: string, t: string)
    requires TimesAreTimestamps(env) && name in TIME_NAMES && IsLayout(layout)
    ensures Expand(env, p + FormattedToken(name, layout) + t) ==
              Expand(env, p) + StringLiteral(env.format(IsStart(name), layout)) + Expand(env, t)
            <==> NothingFound(Finder(env, Plain), env.format(IsStart(name), layout))
  {
    var plain, time := Finder(env, Plain), env.format(IsStart(name), layout);
    FormattedMacroInText(env, p, name, layout, t);
    SameMiddle(Expand(env, p), Scan(plain, StringLiteral(time)), StringLiteral(time), Expand(env, t));
    FinderIsProper(env, Plain);
    FinderRenders(env, Plain);
    ScanLeavesExactly(plain, StringLiteral(time));
    NothingFoundInLiteral(env, time);
  }

  // ---- Texts with a placeholder ----

  predicate Holds(text: string) {
    CountQuery(text) > 0
  }

  lemma HoldsStep(text: string)
    requires text != ""
    ensures Holds(text) <==> QUERY <= text || Holds(text[1..])
  {
  }

  /** The values that a pass puts in. */
  function Used(find: string -> Found, text: string): seq<string>
    decreases |text|
  {
    if text == "" then []
    else
      match find(text)
      case Token(n, value) => if 0 < n <= |text| then [value] + Used(find, text[n..]) else []
      case Nothing => Used(find, text[1..])
  }

  ghost predicate SomeHolds(values: seq<string>) {
    exists i | 0 <= i < |values| :: Holds(values[i])
  }

  lemma SomeHoldsStep(v: string, values: seq<string>)
    ensures SomeHolds([v] + values) <==> Holds(v) || SomeHolds(values)
  {
    if Holds(v) {
      assert ([v] + values)[0] == v;
    } else if SomeHolds(values) {
      var i :| 0 <= i < |values| && Holds(values[i]);
      assert ([v] + values)[i + 1] == values[i];
    }
  }

  lemma {:induction false} HoldsInParts(a: string, b: string)
    requires a != "" && a[|a| - 1] !in QUERY
    ensures Holds(a + b) <==> Holds(a) || Holds(b)
    decreases |a|
  {
    HoldsStep(a);
    HoldsStep(a + b);
    if |a| == 1 {
      assert a[1..] == "" && (a + b)[1..] == b;
      NotPrefix(QUERY, a + b, 0);
      NotPrefix(QUERY, a, 0);
    } else {
      assert (a + b)[1..] == a[1..] + b;
      HoldsInParts(a[1..], b);
      if |a| < |QUERY| {
        NotPrefix(QUERY, a + b, |a| - 1);
        NotPrefix(QUERY, a, |a| - 1);
      } else {
        assert (a + b)[..|QUERY|] == a[..|QUERY|];
      }
    }
  }

  lemma {:induction false} HoldsAfter(p: string, n: nat)
    requires n <= |p| && forall i | 0 <= i < n :: !(QUERY <= p[i..])
    ensures Holds(p) <==> Holds(p[n..])
    decreases n
  {
    assert p[0..] == p;
    if n > 0 {
      HoldsStep(p);
      forall i | 0 <= i < n - 1 ensures !(QUERY <= p[1..][i..]) {
        assert p[1..][i..] == p[i + 1..];
      }
      HoldsAfter(p[1..], n - 1);
      assert p[1..][n - 1..] == p[n..];
    }
  }

  lemma PlaceholderBegins(text: string)
    requires QUERY <= text
    ensures StartsNoToken(text) && text[0] == '{'
  {
    assert text[1] == 'Q';
  }

  /** No placeholder begins inside a token. */
  lemma TokenHasNoPlaceholder(find: string -> Found, p: string)
    requires Proper(find) && p != "" && find(p).Token?
    ensures find(p).length <= |p| && forall i | 0 <= i < find(p).length :: !(QUERY <= p[i..])
  {
    assert Fits(find, p) && PassesOver(find, p);
    forall i | 0 <= i < find(p).length ensures !(QUERY <= p[i..]) {
      assert p[..i] + p[i..] == p && p[0..] == p;
      assert EndsBefore(find, '{', p[..i], p[i..]) && Fits(find, p[..i]);
      if QUERY <= p[i..] { PlaceholderBegins(p[i..]); }
    }
  }

  /** Text of the placeholder's characters in what a scan gives was there before. */
  lemma {:induction false} WordsWereThere(find: string -> Found, w: string, q: string)
    requires Proper(find) && Renders(find) && (forall i | 0 <= i < |w| :: w[i] in QUERY) && w <= Scan(find, q)
    ensures w <= q
    decreases |q|
  {
    if w != "" {
      assert q != "" && Fits(find, q) && RendersAt(find, q);
      ScanStep(find, q);
      assert w[0] == Scan(find, q)[0];
      if find(q) == Nothing {
        FirstThenRest(w, q[0], Scan(find, q[1..]));
        WordsWereThere(find, w[1..], q[1..]);
        FirstThenRest(w, q[0], q[1..]);
        assert [q[0]] + q[1..] == q;
      }
    }
  }

  lemma PlaceholderWasThere(find: string -> Found, p: string)
    requires Proper(find) && Renders(find)
    ensures QUERY <= Scan(find, p) <==> QUERY <= p
  {
    if QUERY <= p {
      PlaceholderStays(find, p[|QUERY|..]);
      assert QUERY + p[|QUERY|..] == p;
    }
    if QUERY <= Scan(find, p) {
      WordsWereThere(find, QUERY, p);
    }
  }

  /** What a pass gives has a placeholder exactly if the text had one, or a value put in has. */
  lemma {:induction false} ScanHoldsExactly(find: string -> Found, p: string)
    requires Proper(find) && Renders(find)
    ensures Holds(Scan(find, p)) <==> Holds(p) || SomeHolds(Used(find, p))
    decreases |p|
  {
    if p != "" {
      assert Fits(find, p) && RendersAt(find, p);
      ScanStep(find, p);
      if find(p).Token? {
        var n, value := find(p).length, find(p).value;
        ScanHoldsExactly(find, p[n..]);
        HoldsInParts(value, Scan(find, p[n..]));
        SomeHoldsStep(value, Used(find, p[n..]));
        TokenHasNoPlaceholder(find, p);
        HoldsAfter(p, n);
      } else {
        ScanHoldsExactly(find, p[1..]);
        PlaceholderWasThere(find, p);
        HoldsStep(p);
        HoldsStep(Scan(find, p));
        assert Scan(find, p)[1..] == Scan(find, p[1..]);
      }
    }
  }

  // ---- Where the query goes ----

  /** All that macros put into a text. */
  function MacroValues(env: Env, text: string): seq<string> {
    Used(Finder(env, Formatted), text) + Used(Finder(env, Plain), Scan(Finder(env, Formatted), text))
  }

  lemma SomeHoldsInParts(a: seq<string>, b: seq<string>)
    ensures SomeHolds(a + b) <==> SomeHolds(a) || SomeHolds(b)
  {
    if SomeHolds(a) {
      var i :| 0 <= i < |a| && Holds(a[i]);
      assert (a + b)[i] == a[i];
    } else if SomeHolds(b) {
      var i :| 0 <= i < |b| && Holds(b[i]);
      assert (a + b)[|a| + i] == b[i];
    }
  }

  lemma ExpandHoldsExactly(env: Env, p: string)
    requires TimesAreTimestamps(env)
    ensures Holds(Expand(env, p)) <==> Holds(p) || SomeHolds(MacroValues(env, p))
  {
    var formatted, plain := Finder(env, Formatted), Finder(env, Plain);
    FinderIsProper(env, Formatted);
    FinderIsProper(env, Plain);
    FinderRenders(env, Formatted);
    FinderRenders(env, Plain);
    ScanHoldsExactly(formatted, p);
    ScanHoldsExactly(plain, Scan(formatted, p));
    SomeHoldsInParts(Used(formatted, p), Used(plain, Scan(formatted, p)));
  }

  // ---- Which values have a placeholder ----

  /** A literal has one exactly if its text has one. */
  lemma {:induction false} EscapedHolds(s: string)
    ensures Holds(Escape(s) + "\"") <==> Holds(s)
    decreases |s|
  {
    var text := Escape(s) + "\"";
    HoldsStep(text);
    EscapingKeepsTokens(QUERY, s);
    if s == "" {
      assert text[1..] == "";
    } else {
      var tail := Escape(s[1..]) + "\"";
      EscapedHolds(s[1..]);
      HoldsStep(s);
      Associative(EscapeChar(s[0]), Escape(s[1..]), "\"");
      if EscapeChar(s[0]) == [s[0]] {
        assert text[1..] == tail;
      } else {
        HoldsStep(text[1..]);
        assert text[1..][1..] == tail;
        NotPrefix(QUERY, text[1..], 0);
      }
    }
  }

  lemma LiteralHolds(s: string)
    ensures Holds(StringLiteral(s)) <==> Holds(s)
  {
    Associative("\"", Escape(s), "\"");
    assert StringLiteral(s)[1..] == Escape(s) + "\"";
    HoldsStep(StringLiteral(s));
    NotPrefix(QUERY, StringLiteral(s), 0);
    EscapedHolds(s);
  }

  lemma {:induction false} NoBraceNoPlaceholder(s: string)
    requires Lacks(s, '{')
    ensures !Holds(s)
    decreases |s|
  {
    if s != "" {
      NotPrefix(QUERY, s, 0);
      NoBraceNoPlaceholder(s[1..]);
    }
  }

  ghost predicate AllAreRendered(values: seq<string>) {
    forall i | 0 <= i < |values| :: Rendered(values[i])
  }

  lemma {:induction false} UsedAreRendered(find: string -> Found, text: string)
    requires Proper(find) && Renders(find)
    ensures AllAreRendered(Used(find, text))
    decreases |text|
  {
    if text != "" {
      assert Fits(find, text) && RendersAt(find, text);
      if find(text).Token? {
        UsedAreRendered(find, text[find(text).length..]);
      } else {
        UsedAreRendered(find, text[1..]);
      }
    }
  }

  /** A text that has the placeholder is put in, quoted, by some macro of `p`. */
  ghost predicate UsesPlaceholderText(env: Env, p: string) {
    exists text :: StringLiteral(text) in MacroValues(env, p) && Holds(text)
  }

  lemma OnlyTextsHold(env: Env, p: string)
    requires TimesAreTimestamps(env)
    ensures SomeHolds(MacroValues(env, p)) <==> UsesPlaceholderText(env, p)
  {
    var values := MacroValues(env, p);
    MacroValuesAreRendered(env, p);
    if SomeHolds(values) {
      var i :| 0 <= i < |values| && Holds(values[i]);
      assert Rendered(values[i]);
      if Lacks(values[i], '{') { NoBraceNoPlaceholder(values[i]); }
      var text :| values[i] == StringLiteral(text);
      LiteralHolds(text);
    }
    if UsesPlaceholderText(env, p) {
      var text :| StringLiteral(text) in values && Holds(text);
      LiteralHolds(text);
      assert SomeHolds(values);
    }
  }

  lemma MacroValuesAreRendered(env: Env, p: string)
    requires TimesAreTimestamps(env)
    ensures AllAreRendered(MacroValues(env, p))
  {
    var formatted, plain := Finder(env, Formatted), Finder(env, Plain);
    FinderIsProper(env, Formatted);
    FinderIsProper(env, Plain);
    FinderRenders(env, Formatted);
    FinderRenders(env, Plain);
    UsedAreRendered(formatted, p);
    UsedAreRendered(plain, Scan(formatted, p));
  }

  // ---- The wrapper ----

  lemma {:induction false} CountAfterFirst(a: string, rest: string)
    requires CountQuery(a) == 0
    ensures CountQuery(a + QUERY + rest) == 1 + CountQuery(rest)
    decreases |a|
  {
    var text := a + QUERY + rest;
    if a == "" {
      assert text == QUERY + rest && text[|QUERY|..] == rest && QUERY <= text;
    } else {
      Associative(a, QUERY, rest);
      PrefixIsLocal(QUERY, a, QUERY + rest);
      assert text[1..] == a[1..] + QUERY + rest;
      CountAfterFirst(a[1..], rest);
    }
  }

  /** Before the only placeholder there is none. */
  lemma NoneBeforeTheOnly(p: string, s: string)
    requires CountQuery(p + QUERY + s) == 1
    ensures CountQuery(p) == 0
  {
    if CountQuery(p) > 0 {
      var a, b := FirstPlaceholder(p);
      Regrouped(a, QUERY, b, QUERY, s);
      CountAfterFirst(a, b + QUERY + s);
      PlaceholderInside(b, s);
    }
  }

  lemma Regrouped(a: string, b: string, c: string, d: string, e: string)
    ensures (a + b + c) + d + e == a + b + (c + d + e)
  {
  }

  lemma {:induction false} PlaceholderInside(b: string, s: string)
    ensures Holds(b + QUERY + s)
    decreases |b|
  {
    var text := b + QUERY + s;
    HoldsStep(text);
    if b == "" {
      assert text == QUERY + s && QUERY <= text;
    } else {
      assert text[1..] == b[1..] + QUERY + s;
      PlaceholderInside(b[1..], s);
    }
  }

  /** The compiled text is the three parts for every query, exactly if no macro before the
      placeholder stands for a text that has the placeholder in it. */
  lemma CompiledInPartsByTexts(env: Env, wrapper: string, p: string, s: string)
    requires TimesAreTimestamps(env) && Trim(wrapper) == p + QUERY + s && CountQuery(Trim(wrapper)) == 1
    ensures (forall query ::
              Compile(env, query, wrapper) == Compiled(Expand(env, p) + Expand(env, query) + Expand(env, s)))
            <==> !UsesPlaceholderText(env, p)
  {
    NoneBeforeTheOnly(p, s);
    CompiledInPartsExactly(env, wrapper, p, s);
    ExpandHoldsExactly(env, p);
    OnlyTextsHold(env, p);
  }
}
