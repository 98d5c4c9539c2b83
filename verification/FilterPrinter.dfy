/** Printing a filter tree by the documented grammar, with as few parentheses as precedence allows, and
    the proof that reading the text back gives the tree. */
module FilterPrinter {
  import opened Wrappers
  import opened FilterLexer
  import opened FilterParser

  const OPEN := Token(Operator, "(")
  const CLOSE := Token(Operator, ")")
  const COMMA := Token(Operator, ",")
  const OR := Token(Keyword, "or")
  const AND := Token(Keyword, "and")
  const NOT := Token(Keyword, "not")

  function DigitChar(d: nat): char
    requires d < 10
  {
    "0123456789"[d]
  }

  function Digits(n: nat): (s: string)
    ensures s != "" && (forall i :: 0 <= i < |s| ==> IsDigit(s[i])) && DigitsValue(s) == n
  {
    if n < 10 then [DigitChar(n)] else Digits(n / 10) + [DigitChar(n % 10)]
  }

  function IntText(v: int): (s: string)
    ensures IsNumber(s) && '.' !in s
    ensures MIN_INT64 <= v <= MAX_INT64 ==> ParseInt(s) == v
  {
    if v < 0 then "-" + Digits(-v) else Digits(v)
  }

  function CompareToken(op: Op): (t: Token)
    requires !op.Or? && !op.And?
    ensures Compares(t) == Some(op)
  {
    Token(Operator, match op case Eq => "==" case Ne => "!=" case Lt => "<" case Le => "<=" case Gt => ">" case Ge => ">=")
  }

  /** A token that can be written out. */
  predicate Shown(t: Token) {
    Lexed(t) && match t.kind
    case EndOfInput => false
    case Operator => t.text in {"(", ")", ",", "==", "!=", "<", "<=", ">", ">="}
    case Keyword => IsKeyword(t.text)
    case _ => true
  }

  ghost predicate Page(ts: seq<Token>) {
    ts != [] && if |ts| == 1 then ts == [END] else Shown(ts[0]) && Page(ts[1..])
  }

  lemma {:induction false} PageIsInput(ts: seq<Token>)
    requires Page(ts)
    ensures Input(ts)
  {
    if |ts| > 1 {
      PageIsInput(ts[1..]);
    }
  }

  // ---- the tokens of a tree, followed by `rest` ----

  function On(t: Token, rest: seq<Token>): (r: seq<Token>)
    ensures |r| == |rest| + 1 && r[0] == t && (rest != [] ==> Drop(r) == rest)
    ensures Shown(t) && Page(rest) ==> Page(r)
  {
    assert ([t] + rest)[1..] == rest;
    [t] + rest
  }

  function PutValue(n: Node, rest: seq<Token>): (r: seq<Token>)
    requires IsValue(n)
    ensures Page(rest) ==> Page(r) && |r| > |rest|
    decreases n, 1
  {
    match n
    case Str(s) => On(Token(Text, s), rest)
    case Int(v) => On(Token(Integer, IntText(v)), rest)
    case Float(s) => On(Token(Decimal, s), rest)
    case Bool(b) => On(Token(Identifier, if b then "true" else "false"), rest)
    case Ident(name) => On(Token(Identifier, name), rest)
    case Call(name, args) => On(Token(Identifier, name), On(OPEN, PutArgs(args, On(CLOSE, rest))))
  }

  function PutArgs(args: seq<Node>, rest: seq<Token>): (r: seq<Token>)
    requires forall i :: 0 <= i < |args| ==> IsValue(args[i])
    ensures Page(rest) ==> Page(r) && |r| >= |rest|
    decreases args, 0
  {
    if args == [] then rest
    else if |args| == 1 then PutValue(args[0], rest)
    else PutValue(args[0], On(COMMA, PutArgs(args[1..], rest)))
  }

  function OnCompare(op: Op, rest: seq<Token>): (r: seq<Token>)
    requires !op.Or? && !op.And?
    ensures |r| == |rest| + 1 && r[0] == CompareToken(op) && (rest != [] ==> Drop(r) == rest)
    ensures Page(rest) ==> Page(r)
  {
    On(CompareToken(op), rest)
  }

  /** The tree where operators of the given level and above need no parentheses: 1 takes any, 2 no
      `or`, 3 neither `or` nor `and`. */
  function Put(n: Node, level: nat, rest: seq<Token>): (r: seq<Token>)
    requires IsCondition(n) && 1 <= level <= 3
    ensures Page(rest) ==> Page(r) && |r| > |rest|
    decreases n, level
  {
    if n.Bin? && n.op.Or? then
      if level > 1 then On(OPEN, Put(n, 1, On(CLOSE, rest))) else Put(n.l, 1, On(OR, Put(n.r, 2, rest)))
    else if n.Bin? && n.op.And? then
      if level > 2 then On(OPEN, Put(n, 1, On(CLOSE, rest))) else Put(n.l, 2, On(AND, Put(n.r, 3, rest)))
    else if n.Bin? then PutValue(n.l, OnCompare(n.op, PutValue(n.r, rest)))
    else if n.Not? then On(NOT, Put(n.x, 3, rest))
    else PutValue(n, rest)
  }

  function Escape(s: string): string {
    if s == "" then "" else EscapeChar(s[0]) + Escape(s[1..])
  }

  function EscapeChar(c: char): string {
    if c == '"' then "\\\"" else if c == '\\' then "\\\\" else if c == '\t' then "\\t"
    else if c == '\n' then "\\n" else if c == '\r' then "\\r" else [c]
  }

  function TokenText(t: Token): string {
    if t.kind.Text? then ['"'] + Escape(t.text) + ['"'] else t.text
  }

  function Show(ts: seq<Token>): string {
    if |ts| <= 1 then "" else TokenText(ts[0]) + ([' '] + Show(ts[1..]))
  }

  function Print(n: Node): string
    requires IsCondition(n)
  {
    Show(Put(n, 1, [END]))
  }

  // ---- parsing the tokens gives the tree back ----

  /** The token cannot continue a value or a comparison. */
  predicate Stops(t: Token) {
    Compares(t).None? && !IsOpen(t)
  }

  lemma ValueHead(n: Node, rest: seq<Token>)
    requires IsValue(n)
    ensures PutValue(n, rest) != [] && !IsOpen(PutValue(n, rest)[0]) && !IsNot(PutValue(n, rest)[0])
    ensures PutValue(n, rest)[0].text == ")" ==> n == Str(")")
  {
    if n.Int? {
      assert StartsNumber(IntText(n.value));
    }
  }

  lemma {:induction false} ValueBack(n: Node, rest: seq<Token>)
    requires IsValue(n) && Clean(n) && Page(rest) && (n.Ident? ==> !IsOpen(rest[0]))
    ensures Input(PutValue(n, rest)) && ParseValue(PutValue(n, rest)) == Ok(Parsed(n, rest))
    decreases n, 1
  {
    PageIsInput(PutValue(n, rest));
    PageIsInput(rest);
    if n.Call? {
      CallBack(n.name, n.args, rest);
    }
  }

  lemma {:induction false} CallBack(name: string, args: seq<Node>, rest: seq<Token>)
    requires IsValue(Call(name, args)) && Clean(Call(name, args)) && Page(rest)
    ensures var ts := On(OPEN, PutArgs(args, On(CLOSE, rest)));
            Input(ts) && ParseCall(name, ts) == Ok(Parsed(Call(name, args), rest))
    decreases args, 1
  {
    assert Page(On(CLOSE, rest));
    var inside := PutArgs(args, On(CLOSE, rest));
    PageIsInput(On(OPEN, inside));
    if args != [] {
      ArgsBack(name, [], args, rest);
      assert [] + args == args;
      ArgsHead(args, On(CLOSE, rest));
    }
  }

  lemma ArgsHead(args: seq<Node>, rest: seq<Token>)
    requires args != [] && forall i :: 0 <= i < |args| ==> IsValue(args[i])
    ensures PutArgs(args, rest) != [] && (PutArgs(args, rest)[0].text == ")" ==> args[0] == Str(")"))
  {
    if |args| == 1 {
      ValueHead(args[0], rest);
    } else {
      ValueHead(args[0], On(COMMA, PutArgs(args[1..], rest)));
    }
  }

  lemma {:induction false} ArgsBack(name: string, done: seq<Node>, args: seq<Node>, rest: seq<Token>)
    requires args != [] && Page(rest)
    requires IsValue(Call(name, done + args)) && Clean(Call(name, done + args))
    ensures IsValue(Call(name, done)) && Clean(Call(name, done))
    ensures forall i :: 0 <= i < |args| ==> IsValue(args[i])
    ensures Input(PutArgs(args, On(CLOSE, rest))) && (done == [] ==> PutArgs(args, On(CLOSE, rest))[0].text != ")")
    ensures ParseArgs(name, done, PutArgs(args, On(CLOSE, rest))) == Ok(Parsed(Call(name, done + args), rest))
    decreases args, 0
  {
    PartsGood(name, done, args);
    ArgsReadable(args, rest);
    ArgsHead(args, On(CLOSE, rest));
    if |args| == 1 {
      ValueBack(args[0], On(CLOSE, rest));
      assert args == [args[0]];
    } else {
      var more := PutArgs(args[1..], On(CLOSE, rest));
      assert done + args == (done + [args[0]]) + args[1..];
      ArgsBack(name, done + [args[0]], args[1..], rest);
      ArgsReadable(args[1..], rest);
      ValueBack(args[0], On(COMMA, more));
    }
  }

  lemma ArgsReadable(args: seq<Node>, rest: seq<Token>)
    requires Page(rest) && forall i :: 0 <= i < |args| ==> IsValue(args[i])
    ensures Page(On(CLOSE, rest)) && Page(PutArgs(args, On(CLOSE, rest))) && Input(PutArgs(args, On(CLOSE, rest)))
  {
    PageIsInput(PutArgs(args, On(CLOSE, rest)));
  }

  lemma PartsGood(name: string, done: seq<Node>, args: seq<Node>)
    requires IsValue(Call(name, done + args)) && Clean(Call(name, done + args))
    ensures IsValue(Call(name, done)) && Clean(Call(name, done))
    ensures forall i :: 0 <= i < |args| ==> IsValue(args[i]) && Clean(args[i])
    ensures done == [] && args != [] ==> args[0] != Str(")")
  {
    var all := done + args;
    assert forall i :: 0 <= i < |done| ==> all[i] == done[i];
    forall i | 0 <= i < |args|
      ensures IsValue(args[i]) && Clean(args[i])
    {
      assert all[|done| + i] == args[i];
    }
  }

  /** Which of the three claims about `n` leans on which. */
  function Rank(n: Node, level: nat): nat {
    if n.Bin? && n.op.Or? then (if level == 1 then 0 else if level == 2 then 2 else 1)
    else if n.Bin? && n.op.And? then (if level == 1 then 1 else if level == 2 then 0 else 2)
    else if level <= 3 then 3 - level else 0
  }

  /** Reading an `or` chain puts the reader in its loop with the chain read so far. */
  lemma {:induction false} OrBack(n: Node, rest: seq<Token>)
    requires IsCondition(n) && Clean(n) && Page(rest) && Stops(rest[0]) && !IsAnd(rest[0])
    ensures Input(Put(n, 1, rest)) && Input(rest)
    ensures ParseOr(Put(n, 1, rest)) == OrTail(n, rest)
    decreases n, Rank(n, 1)
  {
    PageIsInput(Put(n, 1, rest));
    PageIsInput(rest);
    if n.Bin? && n.op.Or? {
      var right := Put(n.r, 2, rest);
      OrBack(n.l, On(OR, right));
      AndBack(n.r, rest);
    } else {
      AndBack(n, rest);
    }
  }

  lemma {:induction false} AndBack(n: Node, rest: seq<Token>)
    requires IsCondition(n) && Clean(n) && Page(rest) && Stops(rest[0])
    ensures Input(Put(n, 2, rest)) && Input(rest)
    ensures ParseAnd(Put(n, 2, rest)) == AndTail(n, rest)
    decreases n, Rank(n, 2)
  {
    PageIsInput(Put(n, 2, rest));
    PageIsInput(rest);
    if n.Bin? && n.op.And? {
      var right := Put(n.r, 3, rest);
      AndBack(n.l, On(AND, right));
      NotBack(n.r, rest);
    } else {
      NotBack(n, rest);
    }
  }

  lemma {:induction false} NotBack(n: Node, rest: seq<Token>)
    requires IsCondition(n) && Clean(n) && Page(rest) && Stops(rest[0])
    ensures Input(Put(n, 3, rest)) && Input(rest)
    ensures ParseNot(Put(n, 3, rest)) == Ok(Parsed(n, rest))
    decreases n, Rank(n, 3)
  {
    PageIsInput(Put(n, 3, rest));
    PageIsInput(rest);
    if n.Bin? && (n.op.Or? || n.op.And?) {
      var inside := Put(n, 1, On(CLOSE, rest));
      assert Page(On(CLOSE, rest));
      OrBack(n, On(CLOSE, rest));
    } else if n.Not? {
      NotBack(n.x, rest);
    } else {
      PrimaryBack(n, rest);
    }
  }

  lemma PrimaryBack(n: Node, rest: seq<Token>)
    requires IsCondition(n) && Clean(n) && Page(rest) && Stops(rest[0])
    requires !n.Not? && !(n.Bin? && (n.op.Or? || n.op.And?))
    ensures Input(Put(n, 3, rest)) && ParseNot(Put(n, 3, rest)) == Ok(Parsed(n, rest))
  {
    PageIsInput(Put(n, 3, rest));
    if n.Bin? {
      var right := PutValue(n.r, rest);
      var op := CompareToken(n.op);
      assert Page(On(op, right));
      ValueHead(n.l, On(op, right));
      ValueBack(n.l, On(op, right));
      ValueBack(n.r, rest);
    } else {
      ValueHead(n, rest);
      ValueBack(n, rest);
    }
  }

  // ---- lexing the text gives the tokens back ----

  lemma {:induction false} RunStops(w: string, more: string, p: char -> bool)
    requires (forall i :: 0 <= i < |w| ==> p(w[i])) && (more == "" || !p(more[0]))
    ensures Run(w + more, p) == |w|
  {
    if w == "" {
      assert w + more == more;
    } else {
      assert (w + more)[1..] == w[1..] + more;
      RunStops(w[1..], more, p);
    }
  }

  lemma UnquotePair(c: char, rest: string)
    ensures Unquote(['\\', c] + rest) == Behind([Unescape(c)], Unquote(rest))
  {
    assert (['\\', c] + rest)[2..] == rest;
  }

  lemma UnquoteChar(c: char, rest: string)
    ensures Unquote(EscapeChar(c) + rest) == Behind([c], Unquote(rest))
  {
    if c == '"' || c == '\\' || c == '\t' || c == '\n' || c == '\r' {
      UnquotePair(EscapeChar(c)[1], rest);
      assert EscapeChar(c) == ['\\', EscapeChar(c)[1]];
    } else {
      assert (EscapeChar(c) + rest)[1..] == rest;
    }
  }

  lemma {:induction false} UnquoteEscaped(s: string, more: string)
    ensures Unquote(Escape(s) + ['"'] + more) == Some(Quoted(s, more))
  {
    if s == "" {
      assert (Escape(s) + ['"'] + more)[1..] == more;
    } else {
      var rest := Escape(s[1..]) + ['"'] + more;
      UnquoteEscaped(s[1..], more);
      UnquoteChar(s[0], rest);
      assert Escape(s) + ['"'] + more == EscapeChar(s[0]) + rest;
      assert s == [s[0]] + s[1..];
    }
  }

  lemma SpaceSkipped(s: string)
    ensures Tokens([' '] + s) == Tokens(s)
  {
    assert ([' '] + s)[1..] == s;
  }

  lemma OneToken(t: Token, more: string)
    requires Shown(t)
    ensures Tokens(TokenText(t) + ([' '] + more)) == After([t], Tokens(more))
  {
    var text := TokenText(t);
    var tail := [' '] + more;
    var s := text + tail;
    SpaceSkipped(more);
    if t.kind.Text? {
      QuotedToken(t, tail);
    } else {
      assert s[..|text|] == text && s[|text|..] == tail;
      if t.kind.Identifier? || t.kind.Keyword? {
        WordTokenBack(t, tail);
      } else if t.kind.Integer? || t.kind.Decimal? {
        NumberTokenBack(t, tail);
      }
    }
  }

  lemma QuotedToken(t: Token, tail: string)
    requires t.kind.Text?
    ensures Tokens(TokenText(t) + tail) == After([t], Tokens(tail))
  {
    var s := TokenText(t) + tail;
    assert s[1..] == Escape(t.text) + ['"'] + tail;
    UnquoteEscaped(t.text, tail);
  }

  lemma WordTokenBack(t: Token, tail: string)
    requires Shown(t) && (t.kind.Identifier? || t.kind.Keyword?) && tail != "" && tail[0] == ' '
    ensures Tokens(t.text + tail) == After([t], Tokens(tail))
  {
    var s := t.text + tail;
    RunStops(t.text, tail, IsIdentPart);
    WordTokens(s);
    assert s[..|t.text|] == t.text && s[|t.text|..] == tail;
  }

  lemma NumberTokenBack(t: Token, tail: string)
    requires Shown(t) && (t.kind.Integer? || t.kind.Decimal?) && tail != "" && tail[0] == ' '
    ensures Tokens(t.text + tail) == After([t], Tokens(tail))
  {
    var s := t.text + tail;
    if t.text[0] == '-' {
      assert s[1..] == t.text[1..] + tail;
      RunStops(t.text[1..], tail, IsNumberPart);
    } else {
      RunStops(t.text, tail, IsNumberPart);
    }
    assert NumberLength(s) == |t.text|;
    NumberTokens(s);
    assert s[..|t.text|] == t.text && s[|t.text|..] == tail;
  }

  lemma {:induction false} ShowBack(ts: seq<Token>)
    requires Page(ts)
    ensures Tokens(Show(ts)) == Ok(ts)
    decreases |ts|
  {
    if |ts| == 1 {
      assert ts == [END];
    } else {
      OneToken(ts[0], Show(ts[1..]));
      ShowBack(ts[1..]);
      assert ts == [ts[0]] + ts[1..];
    }
  }

  // ---- the round trip ----

  lemma TokensComeBack(n: Node, ts: seq<Token>)
    requires IsCondition(n) && Clean(n) && ts == Put(n, 1, [END])
    ensures Input(ts) && ParseTokens(ts) == Ok(n)
  {
    OrBack(n, [END]);
    NoMore(n);
  }

  lemma NoMore(n: Node)
    requires IsCondition(n) && Clean(n)
    ensures Input([END]) && OrTail(n, [END]) == Ok(Parsed(n, [END]))
  {
  }

  lemma CleanComesBack(n: Node)
    requires IsCondition(n) && Clean(n)
    ensures Parse(Print(n)) == Ok(n)
  {
    var ts := Put(n, 1, [END]);
    ShowBack(ts);
    TokensComeBack(n, ts);
  }

  /** Printing and parsing give back exactly the trees in which no call's first argument is the string
      `)`, which the parser takes for the closing parenthesis. */
  lemma RoundTrip(n: Node)
    requires IsCondition(n)
    ensures Parse(Print(n)) == Ok(n) <==> Clean(n)
  {
    if Clean(n) {
      CleanComesBack(n);
    }
  }

  /** Whatever text a tree was parsed from, its printed form parses to the same tree. */
  lemma PrintedFormIsEquivalent(s: string)
    requires Parse(s).Ok?
    ensures Parse(Print(Parse(s).value)) == Parse(s)
  {
    RoundTrip(Parse(s).value);
  }
}
