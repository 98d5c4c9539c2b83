/** How the tokens of a filter are spelled: the lexer yields some tokens exactly for the texts that spell
    them, with any white space between (internal/logfilter/parse.go). */
module FilterSpelling {
  import opened Wrappers
  import opened FilterLexer
  import opened FilterPrinter

  predicate Blanks(s: string) {
    forall i :: 0 <= i < |s| ==> s[i] == ' ' || s[i] == '\t' || s[i] == '\n' || s[i] == '\r'
  }

  predicate Figure(c: char) { '0' <= c <= '9' }

  predicate WordPart(c: char) { 'a' <= c <= 'z' || 'A' <= c <= 'Z' || c == '_' || Figure(c) }

  predicate Word(s: string) {
    s != "" && !Figure(s[0]) && forall i :: 0 <= i < |s| ==> WordPart(s[i])
  }

  /** Digits and dots from the first digit on, after a minus sign or not. */
  predicate Numeral(s: string) {
    if s != "" && s[0] == '-' then Unsigned(s[1..]) else Unsigned(s)
  }

  predicate Unsigned(s: string) {
    s != "" && Figure(s[0]) && forall i :: 0 <= i < |s| ==> Figure(s[i]) || s[i] == '.'
  }

  function Escaped(c: char): char {
    match c
    case 'n' => '\n'
    case 'r' => '\r'
    case 't' => '\t'
    case _ => c
  }

  /** What is between the quotes: a backslash goes with the character after it. */
  predicate Inside(body: string, text: string) {
    if body == "" then text == ""
    else if body[0] == '\\' then |body| > 1 && text != "" && text[0] == Escaped(body[1]) && Inside(body[2..], text[1..])
    else body[0] != '"' && text != "" && text[0] == body[0] && Inside(body[1..], text[1..])
  }

  predicate Spells(s: string, t: Token) {
    match t.kind
    case EndOfInput => false
    case Text => |s| >= 2 && s[0] == '"' && s[|s| - 1] == '"' && Inside(s[1..|s| - 1], t.text)
    case Operator => s == t.text && s in {"(", ")", ",", "==", "!=", "<", "<=", ">", ">="}
    case Keyword => s == t.text && s in {"and", "or", "not"}
    case Identifier => s == t.text && Word(s) && s !in {"and", "or", "not"}
    case Integer => s == t.text && Numeral(s) && '.' !in s
    case Decimal => s == t.text && Numeral(s) && '.' in s
  }

  /** A word, a number or a `<` ends only where it cannot go on. */
  predicate Ends(t: Token, rest: string) {
    rest == "" ||
    match t.kind
    case Keyword => !WordPart(rest[0])
    case Identifier => !WordPart(rest[0])
    case Integer => !Figure(rest[0]) && rest[0] != '.'
    case Decimal => !Figure(rest[0]) && rest[0] != '.'
    case Operator => (t.text == "<" || t.text == ">") ==> rest[0] != '='
    case _ => true
  }

  /** The text is white space and spelled tokens, and white space at the end. */
  ghost predicate Spelled(s: string, ts: seq<Token>)
    decreases |ts|, 1
  {
    if |ts| <= 1 then ts == [END] && Blanks(s)
    else exists i, j :: 0 <= i <= j <= |s| && SpelledAt(s, ts, i, j)
  }

  ghost predicate SpelledAt(s: string, ts: seq<Token>, i: int, j: int)
    requires |ts| > 1 && 0 <= i <= j <= |s|
    decreases |ts|, 0
  {
    Blanks(s[..i]) && Spells(s[i..j], ts[0]) && Ends(ts[0], s[j..]) && Spelled(s[j..], ts[1..])
  }

  // ---- what is spelled is lexed ----

  lemma {:induction false} BlanksSkipped(s: string, i: nat)
    requires i <= |s| && Blanks(s[..i])
    ensures Tokens(s) == Tokens(s[i..])
  {
    if i > 0 {
      assert s[..i][0] == s[0] && s[..i][1..] == s[1..][..i - 1] && s[1..][i - 1..] == s[i..];
      BlanksSkipped(s[1..], i - 1);
    }
  }

  lemma {:induction false} UnquotesInside(body: string, text: string, rest: string)
    requires Inside(body, text)
    ensures Unquote(body + ("\"" + rest)) == Some(Quoted(text, rest))
  {
    var s := body + ("\"" + rest);
    if body == "" {
      assert s == "\"" + rest && s[1..] == rest;
    } else if body[0] == '\\' {
      assert s[1] == body[1] && s[2..] == body[2..] + ("\"" + rest);
      UnquotesInside(body[2..], text[1..], rest);
      assert text == [text[0]] + text[1..];
    } else {
      assert s[1..] == body[1..] + ("\"" + rest);
      UnquotesInside(body[1..], text[1..], rest);
      assert text == [text[0]] + text[1..];
    }
  }

  lemma TextLexes(s: string, t: Token, rest: string)
    requires t.kind.Text? && Spells(s, t)
    ensures Tokens(s + rest) == After([t], Tokens(rest))
  {
    var body := s[1..|s| - 1];
    Quoting(s, rest);
    UnquotesInside(body, t.text, rest);
  }

  lemma Quoting(s: string, rest: string)
    requires |s| >= 2 && s[0] == '"' && s[|s| - 1] == '"'
    ensures (s + rest)[0] == '"' && (s + rest)[1..] == s[1..|s| - 1] + ("\"" + rest)
  {
    assert s == "\"" + s[1..|s| - 1] + "\"";
  }

  lemma WordLexes(s: string, t: Token, rest: string)
    requires (t.kind.Identifier? || t.kind.Keyword?) && Spells(s, t) && Ends(t, rest)
    ensures Tokens(s + rest) == After([t], Tokens(rest))
  {
    RunStops(s, rest, IsIdentPart);
    WordTokens(s + rest);
    assert (s + rest)[..|s|] == s && (s + rest)[|s|..] == rest;
  }

  lemma NumeralLexes(s: string, t: Token, rest: string)
    requires (t.kind.Integer? || t.kind.Decimal?) && Spells(s, t) && Ends(t, rest)
    ensures Tokens(s + rest) == After([t], Tokens(rest))
  {
    var whole := s + rest;
    if s[0] == '-' {
      assert whole[1..] == s[1..] + rest;
      RunStops(s[1..], rest, IsNumberPart);
    } else {
      RunStops(s, rest, IsNumberPart);
    }
    assert NumberLength(whole) == |s|;
    NumberTokens(whole);
    assert whole[..|s|] == s && whole[|s|..] == rest;
  }

  lemma OperatorLexes(s: string, t: Token, rest: string)
    requires t.kind.Operator? && Spells(s, t) && Ends(t, rest)
    ensures Tokens(s + rest) == After([t], Tokens(rest))
  {
    var whole := s + rest;
    assert whole[..|s|] == s && whole[|s|..] == rest;
    if |s| == 2 {
      LongCompareTokens(whole);
    } else if s == "<" || s == ">" {
      ShortCompareTokens(whole);
    } else {
      MarkTokens(whole);
    }
  }

  lemma OneLexes(s: string, t: Token, rest: string)
    requires Spells(s, t) && Ends(t, rest)
    ensures Tokens(s + rest) == After([t], Tokens(rest))
  {
    if t.kind.Text? {
      TextLexes(s, t, rest);
    } else if t.kind.Operator? {
      OperatorLexes(s, t, rest);
    } else if t.kind.Integer? || t.kind.Decimal? {
      NumeralLexes(s, t, rest);
    } else {
      WordLexes(s, t, rest);
    }
  }

  lemma {:induction false} SpelledLexes(s: string, ts: seq<Token>)
    requires Spelled(s, ts)
    ensures Tokens(s) == Ok(ts)
    decreases |ts|
  {
    if |ts| <= 1 {
      assert s[..|s|] == s;
      BlanksSkipped(s, |s|);
    } else {
      var i, j :| 0 <= i <= j <= |s| && SpelledAt(s, ts, i, j);
      BlanksSkipped(s, i);
      assert s[i..] == s[i..j] + s[j..];
      OneLexes(s[i..j], ts[0], s[j..]);
      SpelledLexes(s[j..], ts[1..]);
      assert ts == [ts[0]] + ts[1..];
    }
  }

  // ---- what is lexed is spelled ----

  lemma {:induction false} InsideIsUnquoted(s: string) returns (n: nat)
    requires Unquote(s).Some?
    ensures n < |s| && s[n] == '"' && s[n + 1..] == Unquote(s).value.rest && Inside(s[..n], Unquote(s).value.text)
  {
    if s[0] == '"' {
      n := 0;
    } else if s[0] == '\\' && |s| > 1 {
      var k := InsideIsUnquoted(s[2..]);
      n := k + 2;
      assert s[..n] == [s[0], s[1]] + s[2..][..k] && s[..n][2..] == s[2..][..k];
      assert s[2..][k + 1..] == s[n + 1..];
    } else {
      var k := InsideIsUnquoted(s[1..]);
      n := k + 1;
      LoneBackslash(s);
      assert s[..n][1..] == s[1..][..k];
      assert s[1..][k + 1..] == s[n + 1..];
    }
  }

  lemma LoneBackslash(s: string)
    requires Unquote(s).Some? && s[0] != '"' && !(s[0] == '\\' && |s| > 1)
    ensures s[0] != '\\'
  {
  }

  /** The first token: its length and what it is. */
  lemma FirstToken(s: string) returns (n: nat, t: Token)
    requires s != "" && !IsSpace(s[0]) && Tokens(s).Ok?
    ensures 0 < n <= |s| && Spells(s[..n], t) && Ends(t, s[n..]) && Tokens(s) == After([t], Tokens(s[n..]))
  {
    if IsOperatorPart(s[0]) {
      n, t := FirstOperator(s);
    } else if s[0] == '"' {
      n, t := FirstText(s);
    } else if StartsNumber(s) {
      n, t := FirstNumeral(s);
    } else {
      n, t := FirstWord(s);
    }
  }

  lemma FirstOperator(s: string) returns (n: nat, t: Token)
    requires s != "" && IsOperatorPart(s[0]) && Tokens(s).Ok?
    ensures 0 < n <= |s| && Spells(s[..n], t) && Ends(t, s[n..]) && Tokens(s) == After([t], Tokens(s[n..]))
  {
    n := if s[0] == '(' || s[0] == ')' || s[0] == ',' then 1 else if |s| > 1 && s[1] == '=' then 2 else 1;
    t := Token(Operator, s[..n]);
    assert s[..1] == [s[0]];
    if n == 2 {
      LongCompareTokens(s);
      assert s[..2] == [s[0], s[1]];
    } else if s[0] == '(' || s[0] == ')' || s[0] == ',' {
      MarkTokens(s);
    } else {
      OnlyLessOrMore(s);
      ShortCompareTokens(s);
    }
  }

  lemma OnlyLessOrMore(s: string)
    requires s != "" && (s[0] == '=' || s[0] == '!' || s[0] == '<' || s[0] == '>') && !(|s| > 1 && s[1] == '=') && Tokens(s).Ok?
    ensures s[0] == '<' || s[0] == '>'
  {
  }

  lemma FirstText(s: string) returns (n: nat, t: Token)
    requires s != "" && s[0] == '"' && Tokens(s).Ok?
    ensures 0 < n <= |s| && Spells(s[..n], t) && Ends(t, s[n..]) && Tokens(s) == After([t], Tokens(s[n..]))
  {
    var k := InsideIsUnquoted(s[1..]);
    n, t := k + 2, Token(Text, Unquote(s[1..]).value.text);
    assert s[..n][1..n - 1] == s[1..][..k] && s[1..][k + 1..] == s[n..];
  }

  lemma FirstNumeral(s: string) returns (n: nat, t: Token)
    requires StartsNumber(s) && Tokens(s).Ok?
    ensures 0 < n <= |s| && Spells(s[..n], t) && Ends(t, s[n..]) && Tokens(s) == After([t], Tokens(s[n..]))
  {
    n := NumberLength(s);
    t := NumberToken(s[..n]);
    NumberTokens(s);
    if s[0] == '-' {
      assert s[..n][1..] == s[1..][..n - 1];
      assert n < |s| ==> s[n] == s[1..][n - 1];
    }
  }

  lemma FirstWord(s: string) returns (n: nat, t: Token)
    requires s != "" && !IsSpace(s[0]) && !IsOperatorPart(s[0]) && s[0] != '"' && !StartsNumber(s) && Tokens(s).Ok?
    ensures 0 < n <= |s| && Spells(s[..n], t) && Ends(t, s[n..]) && Tokens(s) == After([t], Tokens(s[n..]))
  {
    assert IsIdentStart(s[0]);
    n := Run(s, IsIdentPart);
    t := WordToken(s[..n]);
    WordTokens(s);
  }

  lemma {:induction false} LexedIsSpelled(s: string)
    requires Tokens(s).Ok?
    ensures Spelled(s, Tokens(s).value)
    decreases |s|
  {
    if s != "" {
      if IsSpace(s[0]) {
        LexedIsSpelled(s[1..]);
        BlankBefore(s, Tokens(s[1..]).value);
      } else {
        var n, t := FirstToken(s);
        LexedIsSpelled(s[n..]);
        var ts := [t] + Tokens(s[n..]).value;
        assert ts[1..] == Tokens(s[n..]).value && s[..0] == "" && s[0..n] == s[..n];
        assert SpelledAt(s, ts, 0, n);
      }
    }
  }

  lemma BlankBefore(s: string, ts: seq<Token>)
    requires s != "" && Blanks(s[..1]) && Spelled(s[1..], ts)
    ensures Spelled(s, ts)
  {
    if |ts| > 1 {
      var i, j :| 0 <= i <= j <= |s[1..]| && SpelledAt(s[1..], ts, i, j);
      assert s[..i + 1] == s[..1] + s[1..][..i] && s[1..][i..j] == s[i + 1..j + 1] && s[1..][j..] == s[j + 1..];
      assert SpelledAt(s, ts, i + 1, j + 1);
    } else {
      assert s == s[..1] + s[1..];
    }
  }

  /** The lexer yields tokens exactly for the texts that spell them. */
  lemma LexesIff(s: string, ts: seq<Token>)
    ensures Tokens(s) == Ok(ts) <==> Spelled(s, ts)
  {
    if Spelled(s, ts) {
      SpelledLexes(s, ts);
    }
    if Tokens(s) == Ok(ts) {
      LexedIsSpelled(s);
    }
  }
}
