/** Tokens of the log-filter language (internal/logfilter/parse.go). Columns, which only appear in
    error messages, are left out. */
module FilterLexer {
  import opened Wrappers

  datatype Kind = EndOfInput | Identifier | Text | Integer | Decimal | Operator | Keyword

  datatype Token = Token(kind: Kind, text: string)

  datatype SyntaxError =
    | UnexpectedCharacter | Unterminated | UnexpectedToken | ExpectedClose | ExpectedCommaOrClose

  const END := Token(EndOfInput, "")

  predicate IsDigit(c: char) { '0' <= c <= '9' }

  predicate IsIdentStart(c: char) { 'a' <= c <= 'z' || 'A' <= c <= 'Z' || c == '_' }

  predicate IsIdentPart(c: char) { IsIdentStart(c) || IsDigit(c) }

  predicate IsNumberPart(c: char) { IsDigit(c) || c == '.' }

  predicate IsSpace(c: char) { c == ' ' || c == '\t' || c == '\n' || c == '\r' }

  predicate StartsNumber(s: string) {
    s != "" && (IsDigit(s[0]) || (s[0] == '-' && |s| > 1 && IsDigit(s[1])))
  }

  predicate IsKeyword(w: string) { w == "and" || w == "or" || w == "not" }

  /** The length of the longest prefix whose characters all satisfy `p`. */
  function Run(s: string, p: char -> bool): (n: nat)
    ensures n <= |s| && (forall i :: 0 <= i < n ==> p(s[i])) && (n < |s| ==> !p(s[n]))
  {
    if s == "" || !p(s[0]) then 0 else 1 + Run(s[1..], p)
  }

  function Unescape(c: char): char {
    if c == 't' then '\t' else if c == 'n' then '\n' else if c == 'r' then '\r' else c
  }

  /** A string literal's contents and what follows it, from just after the opening quote. */
  datatype Quoted = Quoted(text: string, rest: string)

  function Unquote(s: string): (q: Option<Quoted>)
    ensures q.Some? ==> |q.value.rest| < |s|
  {
    if s == "" then None
    else if s[0] == '"' then Some(Quoted("", s[1..]))
    else if s[0] == '\\' && |s| > 1 then Behind([Unescape(s[1])], Unquote(s[2..]))
    else Behind([s[0]], Unquote(s[1..]))
  }

  function Behind(text: string, q: Option<Quoted>): Option<Quoted> {
    match q
    case None => None
    case Some(found) => Some(Quoted(text + found.text, found.rest))
  }

  function NumberLength(s: string): (n: nat)
    requires StartsNumber(s)
    ensures 0 < n <= |s|
  {
    if s[0] == '-' then 1 + Run(s[1..], IsNumberPart) else Run(s, IsNumberPart)
  }

  function NumberToken(text: string): Token {
    Token(if '.' in text then Decimal else Integer, text)
  }

  function WordToken(word: string): Token {
    Token(if IsKeyword(word) then Keyword else Identifier, word)
  }

  function After(out: seq<Token>, r: Result<seq<Token>, SyntaxError>): Result<seq<Token>, SyntaxError> {
    match r
    case Ok(ts) => Ok(out + ts)
    case Err(e) => Err(e)
  }

  /** The tokens of `s`, ending in the end-of-input token. */
  function Tokens(s: string): (r: Result<seq<Token>, SyntaxError>)
    ensures r.Ok? ==> r.value != [] && r.value[|r.value| - 1] == END
    decreases |s|
  {
    if s == "" then Ok([END])
    else if IsSpace(s[0]) then Tokens(s[1..])
    else if s[0] == '(' || s[0] == ')' || s[0] == ',' then After([Token(Operator, s[..1])], Tokens(s[1..]))
    else if s[0] == '=' || s[0] == '!' || s[0] == '<' || s[0] == '>' then
      if |s| > 1 && s[1] == '=' then After([Token(Operator, s[..2])], Tokens(s[2..]))
      else if s[0] == '<' || s[0] == '>' then After([Token(Operator, s[..1])], Tokens(s[1..]))
      else Err(UnexpectedCharacter)
    else if s[0] == '"' then
      match Unquote(s[1..])
      case None => Err(Unterminated)
      case Some(q) => After([Token(Text, q.text)], Tokens(q.rest))
    else if StartsNumber(s) then
      var n := NumberLength(s);
      After([NumberToken(s[..n])], Tokens(s[n..]))
    else if IsIdentStart(s[0]) then
      var n := Run(s, IsIdentPart);
      After([WordToken(s[..n])], Tokens(s[n..]))
    else Err(UnexpectedCharacter)
  }

  // ---- the loops ----

  method LexString(s: string, start: nat) returns (r: Option<(string, nat)>)
    requires start < |s| && s[start] == '"'
    ensures match Unquote(s[start + 1..])
            case None => r == None
            case Some(q) => r.Some? && r.value.0 == q.text && start < r.value.1 <= |s| && s[r.value.1..] == q.rest
  {
    var text := "";
    var i := start + 1;
    NothingBehind(Unquote(s[i..]));
    while i < |s|
      invariant start < i <= |s|
      invariant Unquote(s[start + 1..]) == Behind(text, Unquote(s[i..]))
    {
      var c := s[i];
      if c == '"' {
        return Some((text, i + 1));
      }
      if c == '\\' && i + 1 < |s| {
        BehindJoins(text, [Unescape(s[i + 1])], Unquote(s[i + 2..]));
        assert s[i..][2..] == s[i + 2..];
        text := text + [Unescape(s[i + 1])];
        i := i + 2;
      } else {
        BehindJoins(text, [c], Unquote(s[i + 1..]));
        assert s[i..][1..] == s[i + 1..];
        text := text + [c];
        i := i + 1;
      }
    }
    return None;
  }

  lemma NothingBehind(q: Option<Quoted>)
    ensures Behind("", q) == q
  {
    if q.Some? {
      assert "" + q.value.text == q.value.text;
    }
  }

  lemma NothingBefore(r: Result<seq<Token>, SyntaxError>)
    ensures After([], r) == r
  {
    if r.Ok? {
      assert [] + r.value == r.value;
    }
  }

  lemma BehindJoins(a: string, b: string, q: Option<Quoted>)
    ensures Behind(a, Behind(b, q)) == Behind(a + b, q)
  {
    if q.Some? {
      assert a + (b + q.value.text) == (a + b) + q.value.text;
    }
  }

  lemma AfterJoins(a: seq<Token>, b: seq<Token>, r: Result<seq<Token>, SyntaxError>)
    ensures After(a, After(b, r)) == After(a + b, r)
  {
    if r.Ok? {
      assert a + (b + r.value) == (a + b) + r.value;
    }
  }

  method Skip(s: string, start: nat, p: char -> bool) returns (end: nat)
    requires start <= |s|
    ensures end == start + Run(s[start..], p) && end <= |s|
  {
    end := start;
    while end < |s| && p(s[end])
      invariant start <= end <= |s|
      invariant Run(s[start..], p) == (end - start) + Run(s[end..], p)
    {
      assert s[end..][1..] == s[end + 1..];
      end := end + 1;
    }
  }

  method LexNumber(s: string, start: nat) returns (t: Token, end: nat)
    requires start < |s| && StartsNumber(s[start..])
    ensures var n := NumberLength(s[start..]); t == NumberToken(s[start..][..n]) && end == start + n
  {
    var i := start;
    if s[start] == '-' {
      i := i + 1;
      assert s[start..][1..] == s[i..];
    }
    end := Skip(s, i, IsNumberPart);
    assert s[start..][..end - start] == s[start..end];
    t := NumberToken(s[start..end]);
  }

  /** What the token that starts at `i` and ends at `r.value.1` does to the rest. */
  ghost predicate Splits(s: string, i: nat, r: Result<(Token, nat), SyntaxError>)
    requires i <= |s|
  {
    match r
    case Ok(next) => i < next.1 <= |s| && Tokens(s[i..]) == After([next.0], Tokens(s[next.1..]))
    case Err(e) => Tokens(s[i..]) == Err(e)
  }

  lemma SliceOfRest(s: string, i: nat, end: nat)
    requires i <= end <= |s|
    ensures s[i..][..end - i] == s[i..end] && s[i..][end - i..] == s[end..]
  {
  }

  predicate IsOperatorPart(c: char) {
    c == '(' || c == ')' || c == ',' || c == '=' || c == '!' || c == '<' || c == '>'
  }

  lemma MarkTokens(s: string)
    requires s != "" && (s[0] == '(' || s[0] == ')' || s[0] == ',')
    ensures Tokens(s) == After([Token(Operator, s[..1])], Tokens(s[1..]))
  {
  }

  lemma ShortCompareTokens(s: string)
    requires s != "" && (s[0] == '<' || s[0] == '>') && (|s| > 1 ==> s[1] != '=')
    ensures Tokens(s) == After([Token(Operator, s[..1])], Tokens(s[1..]))
  {
  }

  lemma LongCompareTokens(s: string)
    requires |s| > 1 && (s[0] == '=' || s[0] == '!' || s[0] == '<' || s[0] == '>') && s[1] == '='
    ensures Tokens(s) == After([Token(Operator, s[..2])], Tokens(s[2..]))
  {
  }

  lemma NumberTokens(s: string)
    requires StartsNumber(s)
    ensures var n := NumberLength(s); Tokens(s) == After([NumberToken(s[..n])], Tokens(s[n..]))
  {
  }

  lemma WordTokens(s: string)
    requires s != "" && IsIdentStart(s[0])
    ensures var n := Run(s, IsIdentPart); Tokens(s) == After([WordToken(s[..n])], Tokens(s[n..]))
  {
  }

  method LexOperator(s: string, i: nat) returns (r: Result<(Token, nat), SyntaxError>)
    requires i < |s| && IsOperatorPart(s[i])
    ensures Splits(s, i, r)
  {
    var c := s[i];
    var end;
    if c == '(' || c == ')' || c == ',' {
      end := i + 1;
      MarkTokens(s[i..]);
    } else if i + 1 < |s| && s[i + 1] == '=' {
      end := i + 2;
      LongCompareTokens(s[i..]);
    } else if c == '<' || c == '>' {
      end := i + 1;
      ShortCompareTokens(s[i..]);
    } else {
      return Err(UnexpectedCharacter);
    }
    SliceOfRest(s, i, end);
    return Ok((Token(Operator, s[i..end]), end));
  }

  method LexQuoted(s: string, i: nat) returns (r: Result<(Token, nat), SyntaxError>)
    requires i < |s| && s[i] == '"'
    ensures Splits(s, i, r)
  {
    var q := LexString(s, i);
    assert s[i..][1..] == s[i + 1..];
    if q.None? {
      return Err(Unterminated);
    }
    return Ok((Token(Text, q.value.0), q.value.1));
  }

  method LexWordOrNumber(s: string, i: nat) returns (r: Result<(Token, nat), SyntaxError>)
    requires i < |s| && !IsSpace(s[i]) && !IsOperatorPart(s[i]) && s[i] != '"'
    ensures Splits(s, i, r)
  {
    var t, end;
    if IsDigit(s[i]) || (s[i] == '-' && i + 1 < |s| && IsDigit(s[i + 1])) {
      t, end := LexNumber(s, i);
      NumberTokens(s[i..]);
    } else if IsIdentStart(s[i]) {
      end := Skip(s, i, IsIdentPart);
      WordTokens(s[i..]);
      t := WordToken(s[i..end]);
    } else {
      return Err(UnexpectedCharacter);
    }
    SliceOfRest(s, i, end);
    return Ok((t, end));
  }

  method Lex(s: string) returns (r: Result<seq<Token>, SyntaxError>)
    ensures r == Tokens(s)
  {
    var out: seq<Token> := [];
    var i := 0;
    assert s[0..] == s;
    NothingBefore(Tokens(s));
    while i < |s|
      invariant i <= |s| && Tokens(s) == After(out, Tokens(s[i..]))
      decreases |s| - i
    {
      if IsSpace(s[i]) {
        assert s[i..][1..] == s[i + 1..];
        i := i + 1;
      } else {
        var next;
        if IsOperatorPart(s[i]) {
          next := LexOperator(s, i);
        } else if s[i] == '"' {
          next := LexQuoted(s, i);
        } else {
          next := LexWordOrNumber(s, i);
        }
        if next.Err? {
          return Err(next.error);
        }
        AfterJoins(out, [next.value.0], Tokens(s[next.value.1..]));
        out, i := out + [next.value.0], next.value.1;
      }
    }
    return Ok(out + [END]);
  }
}
