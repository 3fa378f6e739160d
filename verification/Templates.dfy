// Which path templates the router accepts, and as what: a grammar of templates that does not mention
// how they are scanned.
module Templates {
  import opened Common
  import opened Routing

  predicate Blank(u: Unicode, s: string) {
    forall i | 0 <= i < |s| :: IsSpace(u, s[i])
  }

  // `name` is `text` without the white space around it.
  ghost predicate Trimmed(u: Unicode, text: string, name: string) {
    && (name == [] || (!IsSpace(u, name[0]) && !IsSpace(u, name[|name| - 1])))
    && exists before, after :: Around(u, text, before, name, after)
  }

  predicate Around(u: Unicode, text: string, before: string, name: string, after: string) {
    text == before + name + after && Blank(u, before) && Blank(u, after)
  }

  // This piece of a template stands for this token: a character other than an opening brace for itself,
  // and a pair of braces, with no closing brace between them, for the identifier that they enclose.
  ghost predicate StandsFor(u: Unicode, piece: string, t: Token) {
    match t
    case Literal(c) => piece == [c] && c != '{'
    case Param(name) =>
      && |piece| >= 2 && piece[0] == '{' && piece[|piece| - 1] == '}' && '}' !in piece[1..|piece| - 1]
      && Trimmed(u, piece[1..|piece| - 1], name) && IsIdentifier(u, name)
  }

  // The text is made of pieces that stand for the tokens, one after another.
  ghost predicate Writes(u: Unicode, text: string, tokens: seq<Token>)
    decreases |tokens|
  {
    if tokens == [] then text == []
    else exists n :: 0 < n <= |text| && StandsFor(u, text[..n], tokens[0]) && Writes(u, text[n..], tokens[1..])
  }

  // ---------- white space ----------

  lemma {:induction false} StripTrims(u: Unicode, s: string)
    ensures Trimmed(u, s, Strip(u, s))
    decreases |s|
  {
    hide IsSpace, Around;
    if s == [] {
      NothingAround(u, s);
    } else if IsSpace(u, s[0]) {
      StripTrims(u, s[1..]);
      var before, after :| Around(u, s[1..], before, Strip(u, s), after);
      MoreBefore(u, s, before, Strip(u, s), after);
    } else if IsSpace(u, s[|s| - 1]) {
      StripTrims(u, s[..|s| - 1]);
      var before, after :| Around(u, s[..|s| - 1], before, Strip(u, s), after);
      MoreAfter(u, s, before, Strip(u, s), after);
    } else {
      NothingAround(u, s);
    }
  }

  lemma NothingAround(u: Unicode, s: string)
    ensures Around(u, s, [], s, [])
  {
  }

  lemma MoreBefore(u: Unicode, s: string, before: string, name: string, after: string)
    requires s != [] && IsSpace(u, s[0]) && Around(u, s[1..], before, name, after)
    ensures Around(u, s, [s[0]] + before, name, after)
  {
    hide IsSpace;
    assert s == [s[0]] + s[1..];
  }

  lemma MoreAfter(u: Unicode, s: string, before: string, name: string, after: string)
    requires s != [] && IsSpace(u, s[|s| - 1]) && Around(u, s[..|s| - 1], before, name, after)
    ensures Around(u, s, before, name, after + [s[|s| - 1]])
  {
    hide IsSpace;
    assert s == s[..|s| - 1] + [s[|s| - 1]];
  }

  lemma {:induction false} TrimmedIsStrip(u: Unicode, s: string, name: string)
    requires Trimmed(u, s, name)
    ensures name == Strip(u, s)
    decreases |s|
  {
    var before, after :| Around(u, s, before, name, after);
    if before != [] {
      assert Around(u, s[1..], before[1..], name, after);
      TrimmedIsStrip(u, s[1..], name);
    } else if name != [] && after != [] {
      assert s[0] == name[0] && s[..|s| - 1] == name + after[..|after| - 1];
      assert Around(u, s[..|s| - 1], [], name, after[..|after| - 1]);
      TrimmedIsStrip(u, s[..|s| - 1], name);
    } else if after != [] {
      assert s == after && Around(u, s[1..], after[1..], [], []);
      TrimmedIsStrip(u, s[1..], name);
    } else {
      assert s == name;
    }
  }

  // ---------- scanning ----------

  lemma {:induction false} FindFromFirst(s: string, c: char, from: nat)
    requires from <= |s|
    ensures var at := FindFrom(s, c, from);
            forall i | from <= i < (if at == -1 then |s| else at) :: s[i] != c
    decreases |s| - from
  {
    if from < |s| && s[from] != c {
      FindFromFirst(s, c, from + 1);
    }
  }

  lemma Inside(path: string, a: nat, b: nat)
    requires a + 2 <= b <= |path|
    ensures path[a..b][1..|path[a..b]| - 1] == path[a + 1..b - 1]
  {
    var piece, n := path[a..b], b - a - 1;
    assert forall k | 0 <= k < n - 1 :: piece[1..n][k] == piece[1 + k] && piece[1 + k] == path[a + (1 + k)];
    assert piece[1..n] == path[a + 1..b - 1];
  }

  // The brace expression at position i, as the scan takes it.
  lemma ScannedGroup(u: Unicode, path: string, i: nat, end: nat, name: string)
    requires i < end < |path| && path[i] == '{' && FindFrom(path, '}', i + 1) == end && name == Strip(u, path[i + 1..end]) && IsIdentifier(u, name)
    ensures StandsFor(u, path[i..end + 1], Param(name))
  {
    hide Trimmed, IsIdentifier, Strip;
    var piece := path[i..end + 1];
    FindFromFirst(path, '}', i + 1);
    Inside(path, i, end + 1);
    StripTrims(u, path[i + 1..end]);
  }

  // And a piece that stands for a parameter is what the scan takes.
  lemma GroupScanned(u: Unicode, path: string, i: nat, n: nat, name: string)
    requires i + n <= |path| && StandsFor(u, path[i..i + n], Param(name))
    ensures n >= 2 && path[i] == '{' && FindFrom(path, '}', i + 1) == i + n - 1
    ensures name == Strip(u, path[i + 1..i + n - 1]) && IsIdentifier(u, name)
  {
    hide Trimmed, IsIdentifier, Strip;
    var piece := path[i..i + n];
    assert |piece| >= 2;
    Inside(path, i, i + n);
    forall k | i + 1 <= k < i + n - 1 ensures path[k] != '}' {
      assert path[k] == piece[1..|piece| - 1][k - i - 1];
    }
    FindFromSkips(path, '}', i + 1, i + n - 1);
    TrimmedIsStrip(u, path[i + 1..i + n - 1], name);
  }

  // The scan gives exactly the tokens that the text writes.
  lemma {:induction false} TokensIff(u: Unicode, path: string, i: nat, tokens: seq<Token>)
    requires i <= |path|
    ensures Tokens(u, path, i) == Ok(tokens) <==> Writes(u, path[i..], tokens)
    decreases |path| - i
  {
    if i == |path| {
      assert path[i..] == [];
    } else if path[i] == '{' {
      ParamIff(u, path, i, tokens);
    } else {
      LiteralIff(u, path, i, tokens);
    }
  }

  lemma LiteralIff(u: Unicode, path: string, i: nat, tokens: seq<Token>)
    requires i < |path| && path[i] != '{'
    ensures Tokens(u, path, i) == Ok(tokens) <==> Writes(u, path[i..], tokens)
    decreases |path| - i, 0
  {
    var t := Literal(path[i]);
    TokensAtLiteral(u, path, i);
    var text := path[i..];
    assert text[1..] == path[i + 1..];
    if Tokens(u, path, i) == Ok(tokens) {
      var rest := Tokens(u, path, i + 1).value;
      assert tokens == [t] + rest && tokens[1..] == rest;
      TokensIff(u, path, i + 1, rest);
      assert text[..1] == [path[i]] && StandsFor(u, text[..1], tokens[0]);
    }
    if Writes(u, text, tokens) {
      var n :| 0 < n <= |text| && StandsFor(u, text[..n], tokens[0]) && Writes(u, text[n..], tokens[1..]);
      assert text[..n][0] == path[i];
      assert tokens[0] == t && n == 1;
      TokensIff(u, path, i + 1, tokens[1..]);
      assert tokens == [t] + tokens[1..];
    }
  }

  lemma ParamIff(u: Unicode, path: string, i: nat, tokens: seq<Token>)
    requires i < |path| && path[i] == '{'
    ensures Tokens(u, path, i) == Ok(tokens) <==> Writes(u, path[i..], tokens)
    decreases |path| - i, 1
  {
    hide Tokens, Writes;
    if Tokens(u, path, i) == Ok(tokens) {
      ScanWrites(u, path, i, tokens);
    }
    if Writes(u, path[i..], tokens) {
      WritingScanned(u, path, i, tokens);
    }
  }

  lemma ScanWrites(u: Unicode, path: string, i: nat, tokens: seq<Token>)
    requires i < |path| && path[i] == '{' && Tokens(u, path, i) == Ok(tokens)
    ensures Writes(u, path[i..], tokens)
    decreases |path| - i, 0
  {
    hide IsIdentifier, Strip, StandsFor, FindFrom, Tokens;
    TokensAtParam(u, path, i);
    var end := FindFrom(path, '}', i + 1);
    var name := Strip(u, path[i + 1..end]);
    var rest := Tokens(u, path, end + 1).value;
    assert tokens == [Param(name)] + rest;
    ScannedGroup(u, path, i, end, name);
    TokensIff(u, path, end + 1, rest);
    WritesMore(u, path, i, end + 1, tokens[0], rest);
  }

  lemma WritesMore(u: Unicode, path: string, i: nat, j: nat, t: Token, rest: seq<Token>)
    requires i < j <= |path| && StandsFor(u, path[i..j], t) && Writes(u, path[j..], rest)
    ensures Writes(u, path[i..], [t] + rest)
  {
    hide StandsFor;
    var text := path[i..];
    assert text[..j - i] == path[i..j] && text[j - i..] == path[j..] && ([t] + rest)[1..] == rest;
  }

  lemma WritingScanned(u: Unicode, path: string, i: nat, tokens: seq<Token>)
    requires i < |path| && path[i] == '{' && Writes(u, path[i..], tokens)
    ensures Tokens(u, path, i) == Ok(tokens)
    decreases |path| - i, 0
  {
    hide IsIdentifier, Strip, StandsFor, FindFrom, Tokens;
    var text := path[i..];
    var n :| 0 < n <= |text| && StandsFor(u, text[..n], tokens[0]) && Writes(u, text[n..], tokens[1..]);
    assert text[..n] == path[i..i + n] && text[n..] == path[i + n..];
    BraceIsParam(u, path[i..i + n], tokens[0]);
    GroupScanned(u, path, i, n, tokens[0].name);
    TokensAtParam(u, path, i);
    TokensIff(u, path, i + n, tokens[1..]);
    assert tokens == [tokens[0]] + tokens[1..];
  }

  lemma BraceIsParam(u: Unicode, piece: string, t: Token)
    requires piece != [] && piece[0] == '{' && StandsFor(u, piece, t)
    ensures t.Param?
  {
  }

  // A template is accepted, as these tokens, exactly if it starts with a slash, its text writes them and no
  // name occurs twice among them. A name that does is refused by the expression compiler; everything
  // else that is not accepted by the template's own rules.
  lemma TemplateIff(u: Unicode, path: string, tokens: seq<Token>)
    ensures ParseTemplate(u, path) == Ok(tokens) <==> path != [] && path[0] == '/' && Writes(u, path, tokens) && Distinct(Names(tokens))
    ensures path != [] && path[0] == '/' && Writes(u, path, tokens) && !Distinct(Names(tokens)) ==> ParseTemplate(u, path) == Err(RegexError)
    ensures ParseTemplate(u, path).Err? && ParseTemplate(u, path).error != RegexError ==>
              ParseTemplate(u, path) == Err(ValueError) && !(path != [] && path[0] == '/' && Writes(u, path, tokens))
  {
    hide Tokens, Writes, Names, Distinct;
    assert path[0..] == path;
    TokensIff(u, path, 0, tokens);
    OnlyValueErrors(u, path, 0);
  }

  lemma {:induction false} OnlyValueErrors(u: Unicode, path: string, i: nat)
    requires i <= |path|
    ensures Tokens(u, path, i).Err? ==> Tokens(u, path, i) == Err(ValueError)
    decreases |path| - i
  {
    hide IsIdentifier, Strip;
    if i < |path| {
      OnlyValueErrors(u, path, if path[i] == '{' && FindFrom(path, '}', i + 1) >= 0 then FindFrom(path, '}', i + 1) + 1 else i + 1);
    }
  }
}
