// RouteTable of fastudp/routing.py: a compiler from path templates to regular expressions, the
// expressions' meaning, and first-match routing.
module Routing {
  import opened Common

  // What str knows about characters outside ASCII.
  datatype Unicode = Unicode(isStart: char -> bool, isContinue: char -> bool, isSpace: char -> bool, upper: string -> string)

  predicate Letter(c: char) {
    'a' <= c <= 'z' || 'A' <= c <= 'Z' || c == '_'
  }

  predicate IdStart(u: Unicode, c: char) {
    if c as int < 128 then Letter(c) else u.isStart(c)
  }

  predicate IdContinue(u: Unicode, c: char) {
    if c as int < 128 then Letter(c) || '0' <= c <= '9' else u.isContinue(c)
  }

  // str.isidentifier
  predicate IsIdentifier(u: Unicode, s: string) {
    |s| > 0 && IdStart(u, s[0]) && forall i | 0 <= i < |s| :: IdStart(u, s[i]) || IdContinue(u, s[i])
  }

  predicate IsSpace(u: Unicode, c: char) {
    if c as int < 128 then 9 <= c as int <= 13 || 28 <= c as int <= 32 else u.isSpace(c)
  }

  // str.strip
  function Strip(u: Unicode, s: string): string
    decreases |s|
  {
    if s == [] then []
    else if IsSpace(u, s[0]) then Strip(u, s[1..])
    else if IsSpace(u, s[|s| - 1]) then Strip(u, s[..|s| - 1])
    else s
  }

  // s.find(c, from), or -1
  function FindFrom(s: string, c: char, from: nat): (at: int)
    requires from <= |s|
    ensures at == -1 || from <= at < |s|
    ensures at >= 0 ==> s[at] == c
    decreases |s| - from
  {
    if from == |s| then -1 else if s[from] == c then from else FindFrom(s, c, from + 1)
  }

  // ---------- templates ----------

  datatype Token = Literal(c: char) | Param(name: string)

  // The template from position i on, as literal characters and named parameters.
  function Tokens(u: Unicode, path: string, i: nat): Result<seq<Token>>
    requires i <= |path|
    decreases |path| - i
  {
    if i == |path| then Ok([])
    else if path[i] == '{' then
      var end := FindFrom(path, '}', i + 1);
      if end == -1 then Err(ValueError)
      else
        var name := Strip(u, path[i + 1..end]);
        if !IsIdentifier(u, name) then Err(ValueError) else Prepend([Param(name)], Tokens(u, path, end + 1))
    else Prepend([Literal(path[i])], Tokens(u, path, i + 1))
  }

  function Prepend(first: seq<Token>, rest: Result<seq<Token>>): Result<seq<Token>> {
    match rest
    case Ok(tokens) => Ok(first + tokens)
    case Err(error) => Err(error)
  }

  function NameOf(t: Token): seq<string> {
    match t
    case Param(name) => [name]
    case Literal(_) => []
  }

  function Names(tokens: seq<Token>): seq<string> {
    if tokens == [] then [] else NameOf(tokens[0]) + Names(tokens[1..])
  }

  predicate Distinct(names: seq<string>) {
    forall i, j | 0 <= i < j < |names| :: names[i] != names[j]
  }

  // A template: it starts with a slash, its parameters are well formed, and no name occurs twice.
  function ParseTemplate(u: Unicode, path: string): Result<seq<Token>> {
    if path == [] || path[0] != '/' then Err(ValueError)
    else
      match Tokens(u, path, 0)
      case Err(error) => Err(error)
      case Ok(tokens) => if Distinct(Names(tokens)) then Ok(tokens) else Err(RegexError)
  }

  // ---------- the emitted text ----------

  const ESCAPED := ".^$+*?[]\\|()"

  function Emitted(t: Token): string {
    match t
    case Param(name) => "(?P<" + name + ">[^/]+)"
    case Literal(c) => if c in ESCAPED then ['\\', c] else [c]
  }

  function Emit(tokens: seq<Token>): string {
    if tokens == [] then [] else Emit(tokens[..|tokens| - 1]) + Emitted(tokens[|tokens| - 1])
  }

  // ---------- reading the text back as a regular expression ----------

  // The characters that do not stand for themselves, and the two ends of a named group of one or more
  // characters other than a slash.
  const META := ".^$*+?{[]\\|()"
  const OPEN_GROUP := "(?P<"
  const CLOSE_GROUP := ">[^/]+)"

  // The items of an expression made of plain characters, escaped characters and named groups of one
  // or more characters other than a slash, up to the final dollar sign.
  function ParseItems(s: string): Option<seq<Token>>
    decreases |s|
  {
    if s == "$" then Some([])
    else if s == [] then None
    else if s[0] == '\\' then
      if |s| == 1 then None else Cons(Literal(s[1]), ParseItems(s[2..]))
    else if OPEN_GROUP <= s then
      var end := FindFrom(s, '>', 4);
      if end == -1 || !(CLOSE_GROUP <= s[end..]) then None
      else Cons(Param(s[4..end]), ParseItems(s[end + |CLOSE_GROUP|..]))
    else if s[0] in META then None
    else Cons(Literal(s[0]), ParseItems(s[1..]))
  }

  function Cons(t: Token, rest: Option<seq<Token>>): Option<seq<Token>> {
    match rest
    case Some(tokens) => Some([t] + tokens)
    case None => None
  }

  // re.compile, on the expressions that the template compiler emits.
  function ParseRegex(s: string): Option<seq<Token>> {
    if s != [] && s[0] == '^' then ParseItems(s[1..]) else None
  }

  // ---------- meaning ----------

  // The strings of the expression: each character stands for itself, each group for one or more
  // characters other than a slash.
  ghost predicate Accepts(items: seq<Token>, text: string)
    decreases |items|
  {
    if items == [] then text == []
    else
      match items[0]
      case Literal(c) => text != [] && text[0] == c && Accepts(items[1..], text[1..])
      case Param(_) => exists n :: 0 < n <= |text| && '/' !in text[..n] && Accepts(items[1..], text[n..])
  }

  // An assignment of values to the parameters, in order.
  predicate Admissible(values: seq<string>) {
    forall v | v in values :: v != [] && '/' !in v
  }

  // The template with the values put in; None if their number is not that of the parameters.
  function Fill(items: seq<Token>, values: seq<string>): Option<string>
    decreases |items|
  {
    if items == [] then if values == [] then Some([]) else None
    else
      match items[0]
      case Literal(c) => Joined([c], Fill(items[1..], values))
      case Param(_) => if values == [] then None else Joined(values[0], Fill(items[1..], values[1..]))
  }

  function Joined(first: string, rest: Option<string>): Option<string> {
    match rest
    case Some(text) => Some(first + text)
    case None => None
  }

  ghost predicate Yields(items: seq<Token>, values: seq<string>, text: string) {
    Admissible(values) && Fill(items, values) == Some(text)
  }

  // A yield of a literal or of a parameter is made of what comes first and a yield of the rest.
  lemma YieldsLiteral(items: seq<Token>, values: seq<string>, text: string)
    requires items != [] && items[0].Literal?
    ensures Yields(items, values, text) <==> text != [] && text[0] == items[0].c && Yields(items[1..], values, text[1..])
  {
    var c := items[0].c;
    if Yields(items, values, text) {
      assert text == [c] + Fill(items[1..], values).value;
      assert text[1..] == Fill(items[1..], values).value;
    }
    if text != [] && text[0] == c && Yields(items[1..], values, text[1..]) {
      assert [c] + text[1..] == text;
    }
  }

  lemma YieldsParam(items: seq<Token>, first: string, values: seq<string>, text: string)
    requires items != [] && items[0].Param?
    ensures Yields(items, [first] + values, text) <==>
              first != [] && '/' !in first && first <= text && Yields(items[1..], values, text[|first|..])
    ensures !Yields(items, [], text)
  {
    var all := [first] + values;
    assert all[1..] == values && all[0] == first;
    if Yields(items, all, text) {
      assert first in all;
      assert text == first + Fill(items[1..], values).value;
      assert text[|first|..] == Fill(items[1..], values).value;
      assert forall v | v in values :: v in all;
    }
    if first != [] && '/' !in first && first <= text && Yields(items[1..], values, text[|first|..]) {
      assert first + text[|first|..] == text;
      assert Admissible(all);
    }
  }

  // A path is in the expression's language iff some admissible assignment yields it.
  lemma {:induction false} AcceptsIffYields(items: seq<Token>, text: string)
    ensures Accepts(items, text) <==> exists values :: Yields(items, values, text)
    decreases |items|
  {
    if items == [] {
      if text == [] {
        assert Yields(items, [], text);
      }
    } else if items[0].Literal? {
      AcceptsIffYieldsLiteral(items, text);
    } else {
      AcceptsIffYieldsParam(items, text);
    }
  }

  lemma AcceptsIffYieldsLiteral(items: seq<Token>, text: string)
    requires items != [] && items[0].Literal?
    ensures Accepts(items, text) <==> exists values :: Yields(items, values, text)
    decreases |items|, 0
  {
    hide Yields;
    if text != [] && text[0] == items[0].c {
      AcceptsIffYields(items[1..], text[1..]);
    }
    if Accepts(items, text) {
      var values :| Yields(items[1..], values, text[1..]);
      YieldsLiteral(items, values, text);
    }
    if values :| Yields(items, values, text) {
      YieldsLiteral(items, values, text);
    }
  }

  lemma AcceptsIffYieldsParam(items: seq<Token>, text: string)
    requires items != [] && items[0].Param?
    ensures Accepts(items, text) <==> exists values :: Yields(items, values, text)
    decreases |items|, 0
  {
    hide Yields;
    if Accepts(items, text) {
      var n :| 0 < n <= |text| && '/' !in text[..n] && Accepts(items[1..], text[n..]);
      AcceptsIffYields(items[1..], text[n..]);
      var values :| Yields(items[1..], values, text[n..]);
      YieldsParam(items, text[..n], values, text);
    }
    if values :| Yields(items, values, text) {
      YieldsParam(items, "", [], text);
      var first, rest := values[0], values[1..];
      assert [first] + rest == values;
      YieldsParam(items, first, rest, text);
      AcceptsIffYields(items[1..], text[|first|..]);
      assert text[..|first|] == first;
    }
  }

  // ---------- matching ----------

  // The longest slash-free prefix.
  function RunLength(text: string): (n: nat)
    ensures n <= |text| && '/' !in text[..n] && (n < |text| ==> text[n] == '/')
  {
    if text == [] || text[0] == '/' then 0 else RunLength(text[1..]) + 1
  }

  // fullmatch: a greedy search that gives characters back one by one. The captured values, in order.
  function Find(items: seq<Token>, text: string): Option<seq<string>>
    decreases |items|, |text| + 1
  {
    if items == [] then if text == [] then Some([]) else None
    else
      match items[0]
      case Literal(c) => if text == [] || text[0] != c then None else Find(items[1..], text[1..])
      case Param(_) => FindGroup(items, text, RunLength(text))
  }

  function FindGroup(items: seq<Token>, text: string, n: nat): Option<seq<string>>
    requires items != [] && n <= |text|
    decreases |items|, n
  {
    if n == 0 then None
    else
      match Find(items[1..], text[n..])
      case Some(values) => Some([text[..n]] + values)
      case None => FindGroup(items, text, n - 1)
  }

  // `a` is preferred to `b`: at the first value in which they differ, that of `a` is longer.
  predicate Greedier(a: seq<string>, b: seq<string>) {
    a == b || (a != [] && b != [] && (|a[0]| > |b[0]| || (a[0] == b[0] && Greedier(a[1..], b[1..]))))
  }

  // The search finds a yield if there is one, and then the greediest: each parameter in turn takes
  // as much as it can.
  lemma {:induction false} FindIsGreediest(items: seq<Token>, text: string)
    ensures Find(items, text).Some? ==> Yields(items, Find(items, text).value, text)
    ensures forall values :: Yields(items, values, text) ==> Find(items, text).Some? && Greedier(Find(items, text).value, values)
    decreases |items|, |text| + 1
  {
    if items != [] {
      hide Yields, Greedier;
      if items[0].Literal? {
        if text != [] && text[0] == items[0].c {
          FindIsGreediest(items[1..], text[1..]);
          if Find(items, text).Some? {
            YieldsLiteral(items, Find(items, text).value, text);
          }
        }
        forall values | Yields(items, values, text)
          ensures Find(items, text).Some? && Greedier(Find(items, text).value, values)
        {
          YieldsLiteral(items, values, text);
        }
      } else {
        FindGroupIsGreediest(items, text, RunLength(text));
        forall values | Yields(items, values, text)
          ensures Find(items, text).Some? && Greedier(Find(items, text).value, values)
        {
          FirstWithinRun(items, values, text);
        }
      }
    }
  }

  // The first value of a yield lies within the leading run.
  lemma FirstWithinRun(items: seq<Token>, values: seq<string>, text: string)
    requires items != [] && items[0].Param? && Yields(items, values, text)
    ensures values != [] && 0 < |values[0]| <= RunLength(text) && values[0] <= text
    ensures Yields(items[1..], values[1..], text[|values[0]|..])
  {
    hide Yields;
    YieldsParam(items, "", [], text);
    var first := values[0];
    assert [first] + values[1..] == values;
    YieldsParam(items, first, values[1..], text);
    WithinRun(first, text);
  }

  lemma {:induction false} WithinRun(first: string, text: string)
    requires '/' !in first && first <= text
    ensures |first| <= RunLength(text)
  {
    if first != [] {
      assert first[0] in first;
      WithinRun(first[1..], text[1..]);
    }
  }

  lemma {:induction false} FindGroupIsGreediest(items: seq<Token>, text: string, n: nat)
    requires items != [] && items[0].Param? && n <= RunLength(text)
    ensures FindGroup(items, text, n).Some? ==> Yields(items, FindGroup(items, text, n).value, text)
    ensures forall values :: Yields(items, values, text) && values != [] && |values[0]| <= n ==>
              FindGroup(items, text, n).Some? && Greedier(FindGroup(items, text, n).value, values)
    decreases |items|, n
  {
    hide Yields, Greedier;
    if n == 0 {
      forall values | Yields(items, values, text) && values != [] ensures |values[0]| > 0 {
        FirstWithinRun(items, values, text);
      }
    } else {
      var first := text[..n];
      FindIsGreediest(items[1..], text[n..]);
      FindGroupIsGreediest(items, text, n - 1);
      if Find(items[1..], text[n..]).Some? {
        assert '/' !in first && first <= text;
        YieldsParam(items, first, Find(items[1..], text[n..]).value, text);
      }
      forall values | Yields(items, values, text) && values != [] && |values[0]| <= n
        ensures FindGroup(items, text, n).Some? && Greedier(FindGroup(items, text, n).value, values)
      {
        FirstWithinRun(items, values, text);
        if |values[0]| == n {
          assert values[0] == first && text[n..] == text[|values[0]|..];
          GreedierTail(first, Find(items[1..], text[n..]).value, values);
        } else if Find(items[1..], text[n..]).Some? {
          GreedierFirst(first, Find(items[1..], text[n..]).value, values);
        }
      }
    }
  }

  lemma GreedierTail(first: string, rest: seq<string>, values: seq<string>)
    requires values != [] && values[0] == first && Greedier(rest, values[1..])
    ensures Greedier([first] + rest, values)
  {
    assert ([first] + rest)[1..] == rest;
  }

  lemma GreedierFirst(first: string, rest: seq<string>, values: seq<string>)
    requires values != [] && |first| > |values[0]|
    ensures Greedier([first] + rest, values)
  {
    assert ([first] + rest)[0] == first;
  }

  // ---------- the compiler preserves meaning ----------

  predicate Plain(u: Unicode, t: Token) {
    match t
    case Literal(c) => c != '{'
    case Param(name) => IsIdentifier(u, name)
  }

  predicate AllPlain(u: Unicode, tokens: seq<Token>) {
    forall t | t in tokens :: Plain(u, t)
  }

  // A template never contains an opening brace as a literal, and its names are identifiers.
  lemma {:induction false} TokensArePlain(u: Unicode, path: string, i: nat)
    requires i <= |path| && Tokens(u, path, i).Ok?
    ensures AllPlain(u, Tokens(u, path, i).value)
    decreases |path| - i
  {
    if i < |path| {
      TokensArePlain(u, path, if path[i] == '{' then FindFrom(path, '}', i + 1) + 1 else i + 1);
    }
  }

  lemma {:induction false} EmitAppends(first: seq<Token>, rest: seq<Token>)
    ensures Emit(first + rest) == Emit(first) + Emit(rest)
  {
    hide Emitted;
    if rest == [] {
      assert first + rest == first;
    } else {
      EmitAppends(first, rest[..|rest| - 1]);
      assert (first + rest)[..|first + rest| - 1] == first + rest[..|rest| - 1];
    }
  }

  lemma {:induction false} FindFromSkips(s: string, c: char, from: nat, at: nat)
    requires from <= at < |s| && s[at] == c && forall i | from <= i < at :: s[i] != c
    ensures FindFrom(s, c, from) == at
    decreases at - from
  {
    if from < at {
      FindFromSkips(s, c, from + 1, at);
    }
  }

  // '>' ends the group's name, since no identifier contains it.
  lemma NameHasNoBracket(u: Unicode, name: string)
    requires IsIdentifier(u, name)
    ensures '>' !in name
  {
  }

  // Outside templates' braces, exactly the special characters are escaped.
  lemma EscapedOrPlain(c: char)
    requires c !in ESCAPED && c != '{'
    ensures c !in META && c != '\\' && c != '(' && c != '$'
  {
    assert ESCAPED[0] == '.' && ESCAPED[1] == '^' && ESCAPED[2] == '$' && ESCAPED[3] == '+' && ESCAPED[4] == '*' && ESCAPED[5] == '?'
        && ESCAPED[6] == '[' && ESCAPED[7] == ']' && ESCAPED[8] == '\\' && ESCAPED[9] == '|' && ESCAPED[10] == '(' && ESCAPED[11] == ')';
  }

  // One emitted token is read back as that token, whatever plain text follows.
  lemma ReadsBack(u: Unicode, t: Token, rest: string)
    requires Plain(u, t) && rest != []
    ensures ParseItems(Emitted(t) + rest) == Cons(t, ParseItems(rest))
  {
    var s := Emitted(t) + rest;
    match t
    case Literal(c) =>
      if c in ESCAPED {
        assert s[2..] == rest && s[0] == '\\' && s[1] == c;
      } else {
        assert s[1..] == rest && s[0] == c;
        EscapedOrPlain(c);
      }
    case Param(name) =>
      NameHasNoBracket(u, name);
      var at := 4 + |name|;
      assert s == OPEN_GROUP + name + (CLOSE_GROUP + rest);
      assert s[at..] == CLOSE_GROUP + rest;
      assert s[at] == '>';
      FindFromSkips(s, '>', 4, at);
      assert s[4..at] == name && s[at + |CLOSE_GROUP|..] == rest && OPEN_GROUP <= s && s[0] == '(';
  }

  lemma {:induction false} EmitReadsBack(u: Unicode, tokens: seq<Token>)
    requires AllPlain(u, tokens)
    ensures ParseItems(Emit(tokens) + "$") == Some(tokens)
  {
    hide Emitted;
    if tokens == [] {
      assert Emit(tokens) + "$" == "$";
    } else {
      EmitReadsBack(u, tokens[1..]);
      EmitAppends([tokens[0]], tokens[1..]);
      assert [tokens[0]] + tokens[1..] == tokens;
      assert Emit([tokens[0]]) == Emit([]) + Emitted(tokens[0]) by {
        assert [tokens[0]][..0] == [];
      }
      assert Emit(tokens) + "$" == Emitted(tokens[0]) + (Emit(tokens[1..]) + "$");
      ReadsBack(u, tokens[0], Emit(tokens[1..]) + "$");
    }
  }

  function RegexText(tokens: seq<Token>): string {
    "^" + Emit(tokens) + "$"
  }

  // Route compilation preserves meaning: the emitted text is, as a regular expression, exactly the
  // template's literals and groups, so a path matches iff some assignment of non-empty slash-free
  // values to the parameters yields it.
  lemma CompilationPreservesMeaning(u: Unicode, path: string, text: string)
    requires ParseTemplate(u, path).Ok?
    ensures var tokens := ParseTemplate(u, path).value;
            && ParseRegex(RegexText(tokens)) == Some(tokens)
            && (Find(tokens, text).Some? <==> Accepts(tokens, text))
            && (Accepts(tokens, text) <==> exists values :: Yields(tokens, values, text))
  {
    hide ParseItems, Emit, Tokens, Find, Accepts, Yields, Distinct, Names;
    var tokens := ParseTemplate(u, path).value;
    TokensArePlain(u, path, 0);
    EmitReadsBack(u, tokens);
    assert RegexText(tokens)[1..] == Emit(tokens) + "$";
    AcceptsIffYields(tokens, text);
    FindIsGreediest(tokens, text);
  }

  // ---------- the compiling loop ----------

  datatype Compiled = Compiled(items: seq<Token>, names: seq<string>)

  lemma {:induction false} NamesAppend(first: seq<Token>, rest: seq<Token>)
    ensures Names(first + rest) == Names(first) + Names(rest)
  {
    hide NameOf;
    if first == [] {
      assert first + rest == rest;
    } else {
      NamesAppend(first[1..], rest);
      assert (first + rest)[1..] == first[1..] + rest;
      Associative(NameOf(first[0]), Names(first[1..]), Names(rest));
    }
  }

  lemma Associative(a: seq<string>, b: seq<string>, c: seq<string>)
    ensures a + (b + c) == (a + b) + c
  {
  }

  lemma PrependTwice(a: seq<Token>, b: seq<Token>, rest: Result<seq<Token>>)
    ensures Prepend([], rest) == rest
    ensures Prepend(a, Prepend(b, rest)) == Prepend(a + b, rest)
  {
    if rest.Ok? {
      assert [] + rest.value == rest.value;
      assert a + (b + rest.value) == a + b + rest.value;
    }
  }

  // One round of the loop appends one token to what has been emitted.
  lemma OneMoreToken(done: seq<Token>, t: Token)
    ensures Emit(done + [t]) == Emit(done) + Emitted(t)
    ensures Names(done + [t]) == Names(done) + NameOf(t)
  {
    hide NameOf, Emitted;
    assert (done + [t])[..|done|] == done;
    NamesAppend(done, [t]);
  }

  lemma NothingYet()
    ensures Emit([]) == "" && Names([]) == []
  {
  }

  lemma TokensAtEnd(u: Unicode, path: string)
    ensures Tokens(u, path, |path|) == Ok([])
  {
  }

  lemma TokensAtLiteral(u: Unicode, path: string, i: nat)
    requires i < |path| && path[i] != '{'
    ensures Tokens(u, path, i) == Prepend([Literal(path[i])], Tokens(u, path, i + 1))
  {
  }

  lemma TokensAtParam(u: Unicode, path: string, i: nat)
    requires i < |path| && path[i] == '{'
    ensures var end := FindFrom(path, '}', i + 1);
            if end == -1 then Tokens(u, path, i) == Err(ValueError)
            else
              var name := Strip(u, path[i + 1..end]);
              Tokens(u, path, i) == if IsIdentifier(u, name) then Prepend([Param(name)], Tokens(u, path, end + 1)) else Err(ValueError)
  {
  }

  method CompilePath(u: Unicode, path: string) returns (r: Result<Compiled>)
    ensures match ParseTemplate(u, path)
            case Ok(tokens) => r == Ok(Compiled(tokens, Names(tokens)))
            case Err(error) => r == Err(error)
  {
    hide Emitted, Strip, IsIdentifier, ParseRegex, Find, Accepts, Tokens, Names, Emit, FindFrom, Distinct;
    if path == [] || path[0] != '/' {
      return Err(ValueError);
    }
    var paramNames: seq<string> := [];
    var regex := "^";
    var i := 0;
    ghost var done: seq<Token> := [];
    PrependTwice([], [], Tokens(u, path, 0));
    NothingYet();
    while i < |path|
      invariant 0 <= i <= |path|
      invariant Tokens(u, path, 0) == Prepend(done, Tokens(u, path, i))
      invariant regex == "^" + Emit(done) && paramNames == Names(done)
      decreases |path| - i
    {
      var token := Literal(path[i]);
      var next := i + 1;
      if path[i] == '{' {
        TokensAtParam(u, path, i);
        var end := FindFrom(path, '}', i + 1);
        if end == -1 {
          return Err(ValueError);
        }
        var name := Strip(u, path[i + 1..end]);
        if !IsIdentifier(u, name) {
          return Err(ValueError);
        }
        paramNames := paramNames + [name];
        token := Param(name);
        next := end + 1;
      } else {
        TokensAtLiteral(u, path, i);
      }
      PrependTwice(done, [token], Tokens(u, path, next));
      OneMoreToken(done, token);
      regex := regex + Emitted(token);
      i := next;
      done := done + [token];
    }
    regex := regex + "$";
    TokensAtEnd(u, path);
    assert done + [] == done;
    // re.compile refuses a repeated group name
    if !Distinct(paramNames) {
      return Err(RegexError);
    }
    CompilationPreservesMeaning(u, path, "");
    assert regex == RegexText(done);
    r := Ok(Compiled(ParseRegex(regex).value, paramNames));
  }

  // ---------- captures ----------

  // match.groupdict()
  function GroupDict(names: seq<string>, values: seq<string>): map<string, string>
    requires |names| == |values|
  {
    if names == [] then map[] else GroupDict(names[1..], values[1..])[names[0] := values[0]]
  }

  // The template with each parameter replaced by its captured value.
  function Substitute(items: seq<Token>, captures: map<string, string>): string {
    if items == [] then []
    else
      (match items[0]
       case Literal(c) => [c]
       case Param(name) => if name in captures then captures[name] else [])
      + Substitute(items[1..], captures)
  }

  lemma {:induction false} OneValuePerName(items: seq<Token>, values: seq<string>)
    requires Fill(items, values).Some?
    ensures |values| == |Names(items)|
    decreases |items|
  {
    if items != [] {
      OneValuePerName(items[1..], if items[0].Param? then values[1..] else values);
    }
  }

  lemma {:induction false} GroupDictAt(names: seq<string>, values: seq<string>, i: nat)
    requires |names| == |values| && Distinct(names) && i < |names|
    ensures names[i] in GroupDict(names, values) && GroupDict(names, values)[names[i]] == values[i]
  {
    if i > 0 {
      GroupDictAt(names[1..], values[1..], i - 1);
    }
  }

  lemma {:induction false} SubstituteIsFill(items: seq<Token>, values: seq<string>, captures: map<string, string>)
    requires Fill(items, values).Some? && |values| == |Names(items)|
    requires forall i | 0 <= i < |values| :: Names(items)[i] in captures && captures[Names(items)[i]] == values[i]
    ensures Some(Substitute(items, captures)) == Fill(items, values)
    decreases |items|
  {
    if items != [] {
      var values' := if items[0].Param? then values[1..] else values;
      OneValuePerName(items[1..], values');
      forall i | 0 <= i < |values'|
        ensures Names(items[1..])[i] in captures && captures[Names(items[1..])[i]] == values'[i]
      {
        var at := if items[0].Param? then i + 1 else i;
        assert Names(items)[at] == Names(items[1..])[i] && values[at] == values'[i];
      }
      if items[0].Param? {
        assert Names(items)[0] == items[0].name;
      }
      SubstituteIsFill(items[1..], values', captures);
    }
  }

  // The captures are a right inverse: put back into the template they give the path.
  lemma CapturesRebuildPath(items: seq<Token>, text: string)
    requires Distinct(Names(items)) && Find(items, text).Some?
    ensures var values := Find(items, text).value;
            |values| == |Names(items)| && Substitute(items, GroupDict(Names(items), values)) == text
  {
    var values := Find(items, text).value;
    FindIsGreediest(items, text);
    OneValuePerName(items, values);
    forall i | 0 <= i < |values|
      ensures Names(items)[i] in GroupDict(Names(items), values) && GroupDict(Names(items), values)[Names(items)[i]] == values[i]
    {
      GroupDictAt(Names(items), values, i);
    }
    SubstituteIsFill(items, values, GroupDict(Names(items), values));
  }

  // ---------- the table ----------

  datatype Route<H> = Route(verb: string, template: string, regex: seq<Token>, names: seq<string>, handler: H)

  datatype Match<H> = Matched(handler: H, captures: map<string, string>)

  ghost predicate Routes<H>(route: Route<H>, verb: string, text: string) {
    route.verb == verb && Accepts(route.regex, text)
  }

  class RouteTable<H> {
    const unicode: Unicode
    var routes: seq<Route<H>>

    // Every route was compiled from its template.
    ghost predicate Valid()
      reads this
    {
      forall r | r in routes ::
        ParseTemplate(unicode, r.template) == Ok(r.regex) && r.names == Names(r.regex) && Distinct(r.names)
    }

    constructor (unicode: Unicode)
      ensures Valid() && routes == [] && this.unicode == unicode
    {
      this.unicode := unicode;
      routes := [];
    }

    method Add(verb: string, path: string, handler: H) returns (r: Result<()>)
      requires Valid()
      modifies this
      ensures Valid()
      ensures r.Ok? <==> ParseTemplate(unicode, path).Ok?
      ensures r.Ok? ==> routes == old(routes) + [Route(unicode.upper(verb), path, ParseTemplate(unicode, path).value,
                                                       Names(ParseTemplate(unicode, path).value), handler)]
      ensures r.Err? ==> routes == old(routes) && r.error == ParseTemplate(unicode, path).error
    {
      hide Tokens;
      var compiled := CompilePath(unicode, path);
      if compiled.Err? {
        return Err(compiled.error);
      }
      routes := routes + [Route(unicode.upper(verb), path, compiled.value.items, compiled.value.names, handler)];
      r := Ok(());
    }

    // The earliest registered route of the method whose template accepts the path; RouteNotFound
    // (None) only if there is none. Its captures, put back into its template, give the path, and
    // are the greediest that do.
    method Match(verb: string, path: string) returns (r: Option<Match<H>>)
      requires Valid()
      ensures r.None? <==> forall k | 0 <= k < |routes| :: !Routes(routes[k], unicode.upper(verb), path)
      ensures r.Some? ==>
                exists k :: && 0 <= k < |routes|
                            && Routes(routes[k], unicode.upper(verb), path)
                            && (forall j | 0 <= j < k :: !Routes(routes[j], unicode.upper(verb), path))
                            && Captured(routes[k], path, r.value)
    {
      var upper := unicode.upper(verb);
      for i := 0 to |routes|
        invariant forall j | 0 <= j < i :: !Routes(routes[j], upper, path)
      {
        var route := routes[i];
        if route.verb != upper {
          continue;
        }
        var values := Find(route.regex, path);
        FindIsGreediest(route.regex, path);
        AcceptsIffYields(route.regex, path);
        if values.Some? {
          CapturesRebuildPath(route.regex, path);
          r := Some(Matched(route.handler, GroupDict(route.names, values.value)));
          assert GreediestCapture(route, path, r.value, values.value);
          return;
        }
      }
      r := None;
    }
  }

  ghost predicate Captured<H>(route: Route<H>, path: string, m: Match<H>) {
    && m.handler == route.handler
    && Substitute(route.regex, m.captures) == path
    && exists values :: GreediestCapture(route, path, m, values)
  }

  ghost predicate GreediestCapture<H>(route: Route<H>, path: string, m: Match<H>, values: seq<string>) {
    && Yields(route.regex, values, path)
    && |values| == |route.names|
    && m.captures == GroupDict(route.names, values)
    && forall others :: Yields(route.regex, others, path) ==> Greedier(values, others)
  }
}
