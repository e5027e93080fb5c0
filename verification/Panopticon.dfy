/** Compiling a Panopticon query: macros are expanded in the query and in its wrapper, and the one
    takes the place of `{Query}` in the other. */
module Panopticon {
  import opened Text

  // ---- q literals ----

  function EscapeChar(c: char): string {
    match c
    case '\\' => "\\\\"
    case '\"' => "\\\""
    case '\n' => "\\n"
    case '\r' => "\\r"
    case '\t' => "\\t"
    case _ => [c]
  }

  function Escape(s: string): string {
    if s == "" then "" else EscapeChar(s[0]) + Escape(s[1..])
  }

  function StringLiteral(s: string): string {
    "\"" + Escape(s) + "\""
  }

  function LongLiteral(n: int): string {
    (if n < 0 then "-" + Digits(-n) else Digits(n)) + "j"
  }

  datatype Read = NoLiteral | Literal(value: string, rest: string)

  function UnescapeChar(c: char): char {
    match c case 'n' => '\n' case 'r' => '\r' case 't' => '\t' case _ => c
  }

  /** How q reads the text of a string literal up to its closing quote. */
  function ReadBody(text: string): Read
    decreases |text|
  {
    if text == "" then NoLiteral
    else if text[0] == '\"' then Literal("", text[1..])
    else if text[0] == '\\' then
      if |text| == 1 then NoLiteral else Prepend(UnescapeChar(text[1]), ReadBody(text[2..]))
    else Prepend(text[0], ReadBody(text[1..]))
  }

  function Prepend(c: char, r: Read): Read {
    if r.Literal? then Literal([c] + r.value, r.rest) else r
  }

  function ReadLiteral(text: string): Read {
    if text != "" && text[0] == '\"' then ReadBody(text[1..]) else NoLiteral
  }

  lemma {:induction false} EscapedReadsBack(s: string, rest: string)
    ensures ReadBody(Escape(s) + "\"" + rest) == Literal(s, rest)
    decreases |s|
  {
    if s == "" {
      assert Escape(s) + "\"" + rest == "\"" + rest;
    } else {
      EscapedReadsBack(s[1..], rest);
      var tail := Escape(s[1..]) + "\"" + rest;
      assert Escape(s) + "\"" + rest == EscapeChar(s[0]) + tail;
      EscapedCharReadsBack(s[0], tail);
      assert [s[0]] + s[1..] == s;
    }
  }

  lemma EscapedCharReadsBack(c: char, tail: string)
    ensures ReadBody(EscapeChar(c) + tail) == Prepend(c, ReadBody(tail))
  {
    var text := EscapeChar(c) + tail;
    if |EscapeChar(c)| == 2 {
      assert text[0] == '\\' && text[2..] == tail;
    } else {
      assert text[0] == c && text[1..] == tail;
    }
  }

  /** A literal reads back as the value, whatever the value and whatever follows: no quote in the
      value closes it early. */
  lemma LiteralReadsBack(s: string, rest: string)
    ensures ReadLiteral(StringLiteral(s) + rest) == Literal(s, rest)
  {
    EscapedReadsBack(s, rest);
    assert (StringLiteral(s) + rest)[1..] == Escape(s) + "\"" + rest;
  }

  // ---- Macros ----

  /** What macros stand for.  `format` renders the start (`true`) or the end of the time range in a
      layout; the texts are empty and the timestamps `0Np` for a zero time. */
  datatype Env = Env(
    from: string, to: string, fromText: string, toText: string,
    format: (bool, string) -> string,
    intervalNs: int, intervalMs: int, maxDataPoints: int, orgID: int,
    refID: string, userName: string, userLogin: string, userEmail: string,
    datasourceName: string, datasourceUID: string)

  /** Names of the macros that are written in braces, and their values. */
  function BracedMacros(env: Env): seq<(string, string)> {
    TimeMacros(env) + TextMacros(env) + NumberMacros(env) + ContextMacros(env)
  }

  function TextMacros(env: Env): seq<(string, string)> {
    [("TimeWindowStartText", StringLiteral(env.fromText)),
     ("TimeWindowEndText", StringLiteral(env.toText)),
     ("SnapshotText", StringLiteral(env.toText)),
     ("FocusTimeText", StringLiteral(env.toText))]
  }

  function NumberMacros(env: Env): seq<(string, string)> {
    [("Interval", LongLiteral(env.intervalNs)),
     ("IntervalNs", LongLiteral(env.intervalNs)),
     ("IntervalMs", LongLiteral(env.intervalMs)),
     ("MaxDataPoints", LongLiteral(env.maxDataPoints))]
  }

  function ContextMacros(env: Env): seq<(string, string)> {
    [("RefID", StringLiteral(env.refID)),
     ("OrgID", LongLiteral(env.orgID)),
     ("UserName", StringLiteral(env.userName)),
     ("UserLogin", StringLiteral(env.userLogin)),
     ("UserEmail", StringLiteral(env.userEmail)),
     ("DatasourceName", StringLiteral(env.datasourceName)),
     ("DatasourceUID", StringLiteral(env.datasourceUID))]
  }

  function TimeMacros(env: Env): seq<(string, string)> {
    [("TimeWindowStart", env.from), ("TimeWindowEnd", env.to), ("Snapshot", env.to), ("FocusTime", env.to),
     ("Start", env.from), ("End", env.to), ("From", env.from), ("To", env.to)]
  }

  /** Names of the macros that are written after a dollar sign. */
  function DollarMacros(env: Env): seq<(string, string)> {
    TimeMacros(env)[..4]
  }

  function Written(braced: seq<(string, string)>, dollar: seq<(string, string)>): seq<(string, string)> {
    seq(|braced|, i requires 0 <= i < |braced| => ("{" + braced[i].0 + "}", braced[i].1))
    + seq(|dollar|, i requires 0 <= i < |dollar| => ("$" + dollar[i].0, dollar[i].1))
  }

  function Tokens(env: Env): seq<(string, string)> {
    Written(BracedMacros(env), DollarMacros(env))
  }

  /** What a scan finds where it stands: the length of a token and its replacement. */
  datatype Found = Nothing | Token(length: nat, value: string)

  function FirstToken(tokens: seq<(string, string)>, text: string): Found {
    if tokens == [] then Nothing
    else if tokens[0].0 <= text then Token(|tokens[0].0|, tokens[0].1)
    else FirstToken(tokens[1..], text)
  }

  function PlainMacro(env: Env, text: string): Found {
    FirstToken(Tokens(env), text)
  }

  const TIME_NAMES := ["TimeWindowStart", "TimeWindowEnd", "Snapshot", "FocusTime", "Start", "End", "From", "To"]

  predicate IsStart(name: string) {
    name == "TimeWindowStart" || name == "Start" || name == "From"
  }

  /** The number of characters before the first brace. */
  function Run(text: string): (k: nat)
    ensures k <= |text|
  {
    if text == "" || text[0] == '{' || text[0] == '}' then 0 else 1 + Run(text[1..])
  }

  function FirstName(names: seq<string>, text: string): string {
    if names == [] then "" else if "{" + names[0] + ":" <= text then names[0] else FirstName(names[1..], text)
  }

  /** What follows `{Name:`: a layout, not empty and without braces, and the closing brace. */
  function LayoutToken(env: Env, name: string, rest: string): Found {
    var k := Run(rest);
    if 1 <= k < |rest| && rest[k] == '}' then
      Token(|name| + 2 + k + 1, StringLiteral(env.format(IsStart(name), rest[..k])))
    else Nothing
  }

  function FormattedIn(env: Env, names: seq<string>, text: string): Found {
    var name := FirstName(names, text);
    if name == "" || |text| < |name| + 2 then Nothing else LayoutToken(env, name, text[|name| + 2..])
  }

  function FormattedMacro(env: Env, text: string): Found {
    FormattedIn(env, TIME_NAMES, text)
  }

  datatype Pass = Formatted | Plain

  function Find(env: Env, pass: Pass, text: string): Found {
    match pass case Formatted => FormattedMacro(env, text) case Plain => PlainMacro(env, text)
  }

  function Finder(env: Env, pass: Pass): string -> Found {
    text => Find(env, pass, text)
  }

  /** One pass over a text: tokens are replaced from left to right, replacements are not looked at
      again. */
  function Scan(find: string -> Found, text: string): string
    decreases |text|
  {
    if text == "" then ""
    else
      match find(text)
      case Token(n, value) => if 0 < n <= |text| then value + Scan(find, text[n..]) else text
      case Nothing => [text[0]] + Scan(find, text[1..])
  }

  function Expand(env: Env, text: string): string {
    Scan(Finder(env, Plain), Scan(Finder(env, Formatted), text))
  }

  // ---- Tokens do not cross an opening brace ----

  lemma Associative(a: string, b: string, c: string)
    ensures a + (b + c) == (a + b) + c
  {
  }

  lemma DropOfConcat(p: string, t: string, n: nat)
    requires n <= |p|
    ensures (p + t)[n..] == p[n..] + t && (p != "" ==> (p + t)[0] == p[0])
  {
  }

  predicate IsLetter(c: char) {
    'A' <= c <= 'Z' || 'a' <= c <= 'z'
  }

  predicate Letters(s: string) {
    forall i | 0 <= i < |s| :: IsLetter(s[i])
  }

  /** A token starts with a brace or a dollar sign, goes on with letters, and is not the
      placeholder. */
  predicate IsToken(tok: string) {
    && |tok| >= 2 && (tok[0] == '{' || tok[0] == '$') && tok[1] != 'Q'
    && forall i | 1 <= i < |tok| :: IsLetter(tok[i]) || tok[i] == '}'
  }

  predicate IsName(name: string) {
    name != "" && name[0] != 'Q' && Letters(name)
  }

  /** The characters no token goes across: an opening brace, and in the plain pass a quote or a
      dollar sign. */
  predicate IsBorder(c: char) {
    c == '{' || c == '\"' || c == '$'
  }

  lemma TimeNamesAreNames()
    ensures forall i | 0 <= i < |TIME_NAMES| :: IsName(TIME_NAMES[i])
  {
  }

  ghost predicate AllNames(macros: seq<(string, string)>) {
    forall i | 0 <= i < |macros| :: IsName(macros[i].0)
  }

  lemma TimeMacrosAreNames(env: Env)
    ensures AllNames(TimeMacros(env))
  {
  }

  lemma TextMacrosAreNames(env: Env)
    ensures AllNames(TextMacros(env))
  {
  }

  lemma NumberMacrosAreNames(env: Env)
    ensures AllNames(NumberMacros(env))
  {
  }

  lemma ContextMacrosAreNames(env: Env)
    ensures AllNames(ContextMacros(env))
  {
  }

  lemma BothAreNames(a: seq<(string, string)>, b: seq<(string, string)>)
    requires AllNames(a) && AllNames(b)
    ensures AllNames(a + b)
  {
  }

  lemma BracedNamesAreNames(env: Env)
    ensures AllNames(BracedMacros(env))
  {
    TimeMacrosAreNames(env);
    TextMacrosAreNames(env);
    NumberMacrosAreNames(env);
    ContextMacrosAreNames(env);
    BothAreNames(TimeMacros(env), TextMacros(env));
    BothAreNames(TimeMacros(env) + TextMacros(env), NumberMacros(env));
    BothAreNames(TimeMacros(env) + TextMacros(env) + NumberMacros(env), ContextMacros(env));
  }

  lemma WrittenAreTokens(braced: seq<(string, string)>, dollar: seq<(string, string)>)
    requires AllNames(braced) && AllNames(dollar)
    ensures forall i | 0 <= i < |Written(braced, dollar)| :: IsToken(Written(braced, dollar)[i].0)
  {
    var tokens := Written(braced, dollar);
    forall i | 0 <= i < |tokens| ensures IsToken(tokens[i].0) {
      if i < |braced| {
        assert tokens[i].0[1..] == braced[i].0 + "}";
      } else {
        assert tokens[i].0[1..] == dollar[i - |braced|].0;
      }
    }
  }

  lemma TokensAreTokens(env: Env)
    ensures forall i | 0 <= i < |Tokens(env)| :: IsToken(Tokens(env)[i].0)
  {
    BracedNamesAreNames(env);
    DollarNamesAreNames(env);
    WrittenAreTokens(BracedMacros(env), DollarMacros(env));
  }

  lemma DollarNamesAreNames(env: Env)
    ensures AllNames(DollarMacros(env))
  {
  }

  lemma NotPrefix(a: string, b: string, i: nat)
    requires i < |a| && (i < |b| ==> a[i] != b[i])
    ensures !(a <= b)
  {
  }

  /** A token in `p + t` that has no character like the first of `t` lies in `p`. */
  lemma PrefixIsLocal(tok: string, p: string, t: string)
    requires p != "" && t != "" && tok != "" && Lacks(tok[1..], t[0])
    ensures tok <= p + t <==> tok <= p
  {
    var text := p + t;
    if |tok| > |p| {
      assert tok[1..][|p| - 1] == tok[|p|] && text[|p|] == t[0];
      NotPrefix(tok, text, |p|);
    } else {
      assert text[..|tok|] == p[..|tok|];
    }
  }

  lemma {:induction false} FirstTokenIsLocal(tokens: seq<(string, string)>, p: string, t: string)
    requires p != "" && t != "" && IsBorder(t[0])
    requires forall i | 0 <= i < |tokens| :: IsToken(tokens[i].0)
    ensures FirstToken(tokens, p + t) == FirstToken(tokens, p)
    ensures FirstToken(tokens, p).Token? ==> 0 < FirstToken(tokens, p).length <= |p|
    decreases |tokens|
  {
    if tokens != [] {
      PrefixIsLocal(tokens[0].0, p, t);
      FirstTokenIsLocal(tokens[1..], p, t);
    }
  }

  lemma {:induction false} NoTokenHere(tokens: seq<(string, string)>, text: string)
    requires forall i | 0 <= i < |tokens| :: IsToken(tokens[i].0)
    requires text != "" && ((text[0] != '{' && text[0] != '$') || (|text| > 1 && text[1] == 'Q'))
    ensures FirstToken(tokens, text) == Nothing
    decreases |tokens|
  {
    if tokens != [] {
      NotPrefix(tokens[0].0, text, if text[0] != '{' && text[0] != '$' then 0 else 1);
      NoTokenHere(tokens[1..], text);
    }
  }

  lemma {:induction false} FirstNameIsLocal(names: seq<string>, p: string, t: string)
    requires p != "" && t != "" && t[0] == '{' && forall i | 0 <= i < |names| :: IsName(names[i])
    ensures FirstName(names, p + t) == FirstName(names, p)
    ensures var name := FirstName(names, p); name != "" ==> "{" + name + ":" <= p
    decreases |names|
  {
    if names != [] {
      var tok := "{" + names[0] + ":";
      assert tok[1..] == names[0] + ":";
      PrefixIsLocal(tok, p, t);
      FirstNameIsLocal(names[1..], p, t);
    }
  }

  lemma {:induction false} NoNameHere(names: seq<string>, text: string)
    requires forall i | 0 <= i < |names| :: IsName(names[i])
    requires text != "" && (text[0] != '{' || (|text| > 1 && text[1] == 'Q'))
    ensures FirstName(names, text) == ""
    decreases |names|
  {
    if names != [] {
      var tok := "{" + names[0] + ":";
      assert tok[0] == '{' && tok[1] == names[0][0];
      NotPrefix(tok, text, if text[0] != '{' then 0 else 1);
      NoNameHere(names[1..], text);
    }
  }

  lemma {:induction false} RunIsLocal(a: string, t: string)
    requires t != "" && t[0] == '{'
    ensures Run(a + t) == Run(a)
    decreases |a|
  {
    if a == "" {
      assert a + t == t;
    } else {
      RunIsLocal(a[1..], t);
      assert (a + t)[0] == a[0] && (a + t)[1..] == a[1..] + t;
    }
  }

  lemma LayoutTokenIsLocal(env: Env, name: string, rest: string, t: string)
    requires t != "" && t[0] == '{'
    ensures LayoutToken(env, name, rest + t) == LayoutToken(env, name, rest)
    ensures var found := LayoutToken(env, name, rest); found.Token? ==> 0 < found.length <= |name| + 2 + |rest|
  {
    var k := Run(rest);
    RunIsLocal(rest, t);
    if k < |rest| {
      assert (rest + t)[k] == rest[k] && (rest + t)[..k] == rest[..k];
    } else {
      assert (rest + t)[k] == '{';
    }
  }

  lemma FormattedIsLocal(env: Env, names: seq<string>, p: string, t: string)
    requires p != "" && t != "" && t[0] == '{' && forall i | 0 <= i < |names| :: IsName(names[i])
    ensures FormattedIn(env, names, p + t) == FormattedIn(env, names, p)
    ensures FormattedIn(env, names, p).Token? ==> 0 < FormattedIn(env, names, p).length <= |p|
  {
    FirstNameIsLocal(names, p, t);
    var name := FirstName(names, p);
    if name != "" {
      var n := |"{" + name + ":"|;
      DropOfConcat(p, t, n);
      LayoutTokenIsLocal(env, name, p[n..], t);
    }
  }

  lemma FindIsLocal(env: Env, pass: Pass, p: string, t: string)
    requires p != "" && t != "" && IsBorder(t[0]) && (pass.Formatted? ==> t[0] == '{')
    ensures Find(env, pass, p + t) == Find(env, pass, p)
    ensures Find(env, pass, p).Token? ==> 0 < Find(env, pass, p).length <= |p|
  {
    match pass
    case Formatted =>
      TimeNamesAreNames();
      FormattedIsLocal(env, TIME_NAMES, p, t);
    case Plain =>
      TokensAreTokens(env);
      FirstTokenIsLocal(Tokens(env), p, t);
  }

  lemma NothingToFind(env: Env, pass: Pass, text: string)
    requires StartsNoToken(text)
    ensures Find(env, pass, text) == Nothing
  {
    match pass
    case Formatted =>
      TimeNamesAreNames();
      NoNameHere(TIME_NAMES, text);
    case Plain =>
      TokensAreTokens(env);
      NoTokenHere(Tokens(env), text);
  }

  predicate StartsNoToken(text: string) {
    text != "" && ((text[0] != '{' && text[0] != '$') || (|text| > 1 && text[0] == '{' && text[1] == 'Q'))
  }

  ghost predicate EndsBefore(find: string -> Found, border: char, p: string, t: string) {
    p != "" && t != "" && t[0] == border ==> find(p + t) == find(p)
  }

  ghost predicate Respects(find: string -> Found, border: char) {
    forall p, t :: EndsBefore(find, border, p, t)
  }

  ghost predicate Fits(find: string -> Found, p: string) {
    p != "" && find(p).Token? ==> 0 < find(p).length <= |p|
  }

  ghost predicate PassesOver(find: string -> Found, text: string) {
    StartsNoToken(text) ==> find(text) == Nothing
  }

  /** Tokens do not reach beyond an opening brace, and start only where they can. */
  ghost predicate Proper(find: string -> Found) {
    && Respects(find, '{')
    && (forall p :: Fits(find, p))
    && (forall text :: PassesOver(find, text))
  }

  lemma FinderIsProper(env: Env, pass: Pass)
    ensures Proper(Finder(env, pass))
  {
    var find := Finder(env, pass);
    forall p, t ensures EndsBefore(find, '{', p, t) {
      if p != "" && t != "" && t[0] == '{' { FindIsLocal(env, pass, p, t); }
    }
    forall p ensures Fits(find, p) {
      if p != "" { FindIsLocal(env, pass, p, "{"); }
    }
    forall text ensures PassesOver(find, text) {
      if StartsNoToken(text) { NothingToFind(env, pass, text); }
    }
  }

  /** One step of a scan. */
  lemma ScanStep(find: string -> Found, text: string)
    requires text != "" && Fits(find, text)
    ensures find(text).Token? ==>
              0 < find(text).length <= |text|
              && Scan(find, text) == find(text).value + Scan(find, text[find(text).length..])
    ensures find(text).Nothing? ==> Scan(find, text) == [text[0]] + Scan(find, text[1..])
  {
  }

  /** A pass works on both sides of an opening brace, or other border, by itself. */
  lemma {:induction false} ScanSplits(find: string -> Found, p: string, t: string)
    requires Proper(find) && t != "" && Respects(find, t[0])
    ensures Scan(find, p + t) == Scan(find, p) + Scan(find, t)
    decreases |p|
  {
    if p == "" {
      assert p + t == t;
    } else {
      assert EndsBefore(find, t[0], p, t) && Fits(find, p) && Fits(find, p + t);
      var n := if find(p).Token? then find(p).length else 1;
      var first := if find(p).Token? then find(p).value else [p[0]];
      ScanStep(find, p);
      ScanStep(find, p + t);
      DropOfConcat(p, t, n);
      ScanSplits(find, p[n..], t);
      Associative(first, Scan(find, p[n..]), Scan(find, t));
    }
  }

  const QUERY := "{Query}"

  /** A character that starts no token stays as it is. */
  lemma ScanSkips(find: string -> Found, text: string)
    requires Proper(find) && StartsNoToken(text)
    ensures Scan(find, text) == [text[0]] + Scan(find, text[1..])
  {
    assert PassesOver(find, text);
  }

  predicate Ordinary(s: string) {
    forall i | 0 <= i < |s| :: s[i] != '{' && s[i] != '$'
  }

  lemma {:induction false} OrdinaryTextStays(find: string -> Found, s: string, rest: string)
    requires Proper(find) && Ordinary(s)
    ensures Scan(find, s + rest) == s + Scan(find, rest)
    decreases |s|
  {
    if s == "" {
      assert s + rest == rest;
    } else {
      DropOfConcat(s, rest, 1);
      ScanSkips(find, s + rest);
      OrdinaryTextStays(find, s[1..], rest);
      Associative([s[0]], s[1..], Scan(find, rest));
      assert [s[0]] + s[1..] == s;
    }
  }

  lemma PlaceholderStays(find: string -> Found, rest: string)
    requires Proper(find)
    ensures Scan(find, QUERY + rest) == QUERY + Scan(find, rest)
  {
    var inner := QUERY[1..];
    DropOfConcat(QUERY, rest, 1);
    assert (QUERY + rest)[1] == 'Q';
    ScanSkips(find, QUERY + rest);
    OrdinaryTextStays(find, inner, rest);
    Associative(['{'], inner, Scan(find, rest));
    assert ['{'] + inner == QUERY;
  }

  lemma ScanKeepsPlaceholder(find: string -> Found, p: string, s: string)
    requires Proper(find)
    ensures Scan(find, p + QUERY + s) == Scan(find, p) + QUERY + Scan(find, s)
  {
    assert p + QUERY + s == p + (QUERY + s);
    ScanSplits(find, p, QUERY + s);
    PlaceholderStays(find, s);
  }

  /** Macros never straddle the placeholder. */
  lemma ExpandKeepsPlaceholder(env: Env, p: string, s: string)
    ensures Expand(env, p + QUERY + s) == Expand(env, p) + QUERY + Expand(env, s)
  {
    var formatted, plain := Finder(env, Formatted), Finder(env, Plain);
    FinderIsProper(env, Formatted);
    FinderIsProper(env, Plain);
    ScanKeepsPlaceholder(formatted, p, s);
    ScanKeepsPlaceholder(plain, Scan(formatted, p), Scan(formatted, s));
  }

  // ---- The placeholder ----

  function CountQuery(text: string): nat
    decreases |text|
  {
    if text == "" then 0
    else if QUERY <= text then 1 + CountQuery(text[|QUERY|..])
    else CountQuery(text[1..])
  }

  /** `strings.Replace(text, "{Query}", replacement, 1)`. */
  function ReplaceQuery(text: string, replacement: string): string
    decreases |text|
  {
    if text == "" then ""
    else if QUERY <= text then replacement + text[|QUERY|..]
    else [text[0]] + ReplaceQuery(text[1..], replacement)
  }

  lemma ReplaceStep(a: string, rest: string, replacement: string)
    requires a != "" && CountQuery(a) == 0
    requires ReplaceQuery(a[1..] + QUERY + rest, replacement) == a[1..] + replacement + rest
    ensures ReplaceQuery(a + QUERY + rest, replacement) == a + replacement + rest
  {
    var tail := QUERY + rest;
    Associative(a, QUERY, rest);
    Associative(a[1..], QUERY, rest);
    PrefixIsLocal(QUERY, a, tail);
    DropOfConcat(a, tail, 1);
    assert ReplaceQuery(a + tail, replacement) == [a[0]] + ReplaceQuery(a[1..] + tail, replacement);
    FirstPutBack(a, replacement, rest);
  }

  lemma FirstPutBack(a: string, b: string, c: string)
    requires a != ""
    ensures [a[0]] + (a[1..] + b + c) == a + b + c
  {
    assert [a[0]] + a[1..] == a;
  }

  lemma {:induction false} ReplaceWithoutPlaceholder(a: string, rest: string, replacement: string)
    requires CountQuery(a) == 0
    ensures ReplaceQuery(a + QUERY + rest, replacement) == a + replacement + rest
    decreases |a|
  {
    if a == "" {
      var text := a + QUERY + rest;
      assert text == QUERY + rest && text[|QUERY|..] == rest;
      assert QUERY <= text;
    } else {
      ReplaceWithoutPlaceholder(a[1..], rest, replacement);
      ReplaceStep(a, rest, replacement);
    }
  }

  /** A text with the placeholder, cut at the first. */
  lemma {:induction false} FirstPlaceholder(text: string) returns (a: string, b: string)
    requires CountQuery(text) > 0
    ensures text == a + QUERY + b && CountQuery(a) == 0
    decreases |text|
  {
    if QUERY <= text {
      a, b := "", text[|QUERY|..];
    } else {
      a, b := FirstPlaceholder(text[1..]);
      OneCharacterMore(text, a, b);
      a := [text[0]] + a;
    }
  }

  lemma OneCharacterMore(text: string, a: string, b: string)
    requires text != "" && text[1..] == a + QUERY + b && CountQuery(a) == 0 && !(QUERY <= text)
    ensures text == [text[0]] + a + QUERY + b && CountQuery([text[0]] + a) == 0
  {
    var longer := [text[0]] + a;
    assert text == [text[0]] + text[1..];
    assert text == longer + (QUERY + b);
    assert longer[1..] == a;
    if |QUERY| <= |longer| {
      assert text[..|QUERY|] == longer[..|QUERY|];
    }
  }

  // ---- Compiling ----

  datatype Compiled = Compiled(text: string) | BadWrapper

  function Compile(env: Env, query: string, wrapper: string): Compiled {
    if Trim(wrapper) == "" then Compiled(Expand(env, query))
    else if CountQuery(Trim(wrapper)) != 1 then BadWrapper
    else Compiled(ReplaceQuery(Expand(env, Trim(wrapper)), Expand(env, query)))
  }

  /** The wrapped query is the three parts, each expanded once, by itself. */
  lemma CompiledInParts(env: Env, query: string, wrapper: string, p: string, s: string)
    requires Trim(wrapper) == p + QUERY + s && CountQuery(Trim(wrapper)) == 1
    requires CountQuery(Expand(env, p)) == 0
    ensures Compile(env, query, wrapper) == Compiled(Expand(env, p) + Expand(env, query) + Expand(env, s))
  {
    ExpandKeepsPlaceholder(env, p, s);
    ReplaceWithoutPlaceholder(Expand(env, p), Expand(env, s), Expand(env, query));
  }

  lemma ReplaceInMacroText(a: string, b: string, last: string, q: string)
    requires CountQuery(a) == 0
    ensures ReplaceQuery(a + QUERY + b + QUERY + last, q) == a + q + b + QUERY + last
  {
    var rest := b + QUERY + last;
    MiddleRegrouped(a, QUERY, b, QUERY, last);
    MiddleRegrouped(a, q, b, QUERY, last);
    ReplaceWithoutPlaceholder(a, rest, q);
  }

  lemma MiddleRegrouped(a: string, b: string, c: string, d: string, e: string)
    ensures a + b + c + d + e == a + b + (c + d + e)
  {
  }

  /** When a macro in the prefix expands to text with a placeholder, the query goes there instead,
      and the wrapper's own placeholder stays. */
  lemma CompiledIntoMacroText(env: Env, query: string, wrapper: string, p: string, s: string, a: string, b: string)
    requires Trim(wrapper) == p + QUERY + s && CountQuery(Trim(wrapper)) == 1
    requires Expand(env, p) == a + QUERY + b && CountQuery(a) == 0
    ensures Compile(env, query, wrapper) == Compiled(a + Expand(env, query) + b + QUERY + Expand(env, s))
  {
    ExpandKeepsPlaceholder(env, p, s);
    var q, last := Expand(env, query), Expand(env, s);
    ReplaceInMacroText(a, b, last, q);
  }

  /** The compiled text is the three parts for every query exactly when the expanded prefix has no
      placeholder. */
  lemma CompiledInPartsExactly(env: Env, wrapper: string, p: string, s: string)
    requires Trim(wrapper) == p + QUERY + s && CountQuery(Trim(wrapper)) == 1
    ensures (forall query ::
              Compile(env, query, wrapper) == Compiled(Expand(env, p) + Expand(env, query) + Expand(env, s)))
            <==> CountQuery(Expand(env, p)) == 0
  {
    if CountQuery(Expand(env, p)) == 0 {
      forall query
        ensures Compile(env, query, wrapper) == Compiled(Expand(env, p) + Expand(env, query) + Expand(env, s)) {
        CompiledInParts(env, query, wrapper, p, s);
      }
    } else {
      var a, b := FirstPlaceholder(Expand(env, p));
      CompiledIntoMacroText(env, "x", wrapper, p, s, a, b);
      LetterStays(env);
      var misplaced, wanted := a + "x" + b + QUERY + Expand(env, s), Expand(env, p) + "x" + Expand(env, s);
      assert misplaced[|a|] == 'x' && wanted[|a|] == '{';
      assert Compile(env, "x", wrapper) != Compiled(Expand(env, p) + Expand(env, "x") + Expand(env, s));
    }
  }

  lemma LetterPasses(find: string -> Found)
    requires Proper(find)
    ensures Scan(find, "x") == "x"
  {
    assert "x" == "x" + "";
    OrdinaryTextStays(find, "x", "");
  }

  lemma LetterStays(env: Env)
    ensures Expand(env, "x") == "x"
  {
    FinderIsProper(env, Formatted);
    FinderIsProper(env, Plain);
    LetterPasses(Finder(env, Formatted));
    LetterPasses(Finder(env, Plain));
  }

  // ---- The model of a query ----

  class QueryModel {
    var queryText: string
    var originalQueryText: string
    var panopticon: bool
    const wrapper: string

    constructor (queryText: string, panopticon: bool, wrapper: string)
      ensures this.queryText == queryText && this.originalQueryText == "" && this.panopticon == panopticon
      ensures this.wrapper == wrapper
    {
      this.queryText, this.originalQueryText, this.panopticon, this.wrapper := queryText, "", panopticon, wrapper;
    }

    /** The text is compiled once; what it was before is kept only the first time. */
    method PrepareForExecution(env: Env) returns (ok: bool)
      modifies this`queryText, this`originalQueryText
      ensures originalQueryText == if old(originalQueryText) == "" then old(queryText) else old(originalQueryText)
      ensures !panopticon ==> ok && queryText == old(queryText)
      ensures panopticon ==> ok == Compile(env, old(queryText), wrapper).Compiled?
      ensures panopticon ==> queryText == if ok then Compile(env, old(queryText), wrapper).text else old(queryText)
    {
      if originalQueryText == "" {
        originalQueryText := queryText;
      }
      if !panopticon {
        return true;
      }
      var compiled := Expand(env, queryText);
      var trimmed := Trim(wrapper);
      if trimmed != "" {
        var count := CountPlaceholders(trimmed);
        if count != 1 {
          return false;
        }
        var expanded := Expand(env, trimmed);
        compiled := ReplaceQuery(expanded, compiled);
      }
      queryText := compiled;
      return true;
    }
  }

  /** `strings.Count`: occurrences that do not overlap, from the left. */
  method CountPlaceholders(text: string) returns (count: nat)
    ensures count == CountQuery(text)
  {
    count := 0;
    var i := 0;
    assert text[0..] == text;
    while i < |text|
      invariant 0 <= i <= |text| && CountQuery(text) == count + CountQuery(text[i..])
      decreases |text| - i
    {
      if QUERY <= text[i..] {
        assert text[i..][|QUERY|..] == text[i + |QUERY|..];
        count := count + 1;
        i := i + |QUERY|;
      } else {
        assert text[i..][1..] == text[i + 1..];
        i := i + 1;
      }
    }
  }
}
