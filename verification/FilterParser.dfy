/** The log-filter syntax tree and its recursive-descent parser (internal/logfilter/parse.go). */
module FilterParser {
  import opened Wrappers
  import opened FilterLexer

  datatype Op = Or | And | Eq | Ne | Lt | Le | Gt | Ge

  /** A decimal number is kept as written; what it rounds to is not part of the syntax. */
  datatype Node =
    | Bin(op: Op, l: Node, r: Node)
    | Not(x: Node)
    | Call(name: string, args: seq<Node>)
    | Ident(name: string)
    | Str(text: string)
    | Int(value: int)
    | Float(digits: string)
    | Bool(on: bool)

  const MAX_INT64: int := 0x7fff_ffff_ffff_ffff
  const MIN_INT64: int := -0x8000_0000_0000_0000

  function Digit(c: char): nat {
    if IsDigit(c) then c as int - '0' as int else 0
  }

  function DigitsValue(s: string): nat {
    if s == "" then 0 else DigitsValue(s[..|s| - 1]) * 10 + Digit(s[|s| - 1])
  }

  /** strconv.ParseInt with its range error ignored: values beyond 64 bits end up at the bounds. */
  function ParseInt(s: string): (v: int)
    ensures MIN_INT64 <= v <= MAX_INT64
  {
    var v: int := if s != "" && s[0] == '-' then -(DigitsValue(s[1..]) as int) else DigitsValue(s);
    if v > MAX_INT64 then MAX_INT64 else if v < MIN_INT64 then MIN_INT64 else v
  }

  function Compares(t: Token): Option<Op> {
    if t.kind != Operator then None
    else if t.text == "==" then Some(Eq)
    else if t.text == "!=" then Some(Ne)
    else if t.text == "<" then Some(Lt)
    else if t.text == "<=" then Some(Le)
    else if t.text == ">" then Some(Gt)
    else if t.text == ">=" then Some(Ge)
    else None
  }

  predicate IsOr(t: Token) { t == Token(Keyword, "or") }

  predicate IsAnd(t: Token) { t == Token(Keyword, "and") }

  predicate IsNot(t: Token) { t == Token(Keyword, "not") }

  predicate IsOpen(t: Token) { t == Token(Operator, "(") }

  // ---- the shape of what comes out ----

  predicate IsWord(w: string) {
    w != "" && IsIdentStart(w[0]) && forall i :: 0 <= i < |w| ==> IsIdentPart(w[i])
  }

  predicate IsName(w: string) {
    IsWord(w) && !IsKeyword(w) && w != "true" && w != "false"
  }

  predicate IsNumber(s: string) {
    StartsNumber(s) && forall i :: (if s[0] == '-' then 1 else 0) <= i < |s| ==> IsNumberPart(s[i])
  }

  predicate IsValue(n: Node) {
    match n
    case Bin(_, _, _) => false
    case Not(_) => false
    case Call(name, args) => IsName(name) && forall i :: 0 <= i < |args| ==> IsValue(args[i])
    case Ident(name) => IsName(name)
    case Str(_) => true
    case Int(v) => MIN_INT64 <= v <= MAX_INT64
    case Float(s) => IsNumber(s) && '.' in s
    case Bool(_) => true
  }

  /** A tree of the grammar: comparisons compare values, everything else combines conditions. */
  predicate IsCondition(n: Node) {
    match n
    case Bin(op, l, r) =>
      if op.Or? || op.And? then IsCondition(l) && IsCondition(r) else IsValue(l) && IsValue(r)
    case Not(x) => IsCondition(x)
    case _ => IsValue(n)
  }

  /** No call's first argument is the string `)`. */
  predicate Clean(n: Node) {
    match n
    case Bin(_, l, r) => Clean(l) && Clean(r)
    case Not(x) => Clean(x)
    case Call(_, args) => (args != [] ==> args[0] != Str(")")) && forall i :: 0 <= i < |args| ==> Clean(args[i])
    case _ => true
  }

  /** A token the lexer can produce, as far as it matters for the tree. */
  predicate Lexed(t: Token) {
    match t.kind
    case Identifier => IsWord(t.text) && !IsKeyword(t.text)
    case Integer => IsNumber(t.text) && '.' !in t.text
    case Decimal => IsNumber(t.text) && '.' in t.text
    case _ => true
  }

  /** What the parser is given: tokens of the lexer, the last one the end of input. */
  ghost predicate Input(ts: seq<Token>) {
    ts != [] && Lexed(ts[0]) && if |ts| == 1 then ts[0].kind == EndOfInput else Input(ts[1..])
  }

  // ---- the grammar, on what is left of the input ----

  datatype Parsed = Parsed(n: Node, rest: seq<Token>)

  /** The next token is taken off, except that the last one stays. */
  function Drop(ts: seq<Token>): (rest: seq<Token>)
    requires ts != []
    ensures rest != [] && (Input(ts) ==> Input(rest))
  {
    if |ts| > 1 then ts[1..] else ts
  }

  ghost predicate Good(ts: seq<Token>, r: Result<Parsed, SyntaxError>) {
    r.Ok? ==> Input(r.value.rest) && |r.value.rest| < |ts| && IsCondition(r.value.n) && Clean(r.value.n)
  }

  function ParseOr(ts: seq<Token>): (r: Result<Parsed, SyntaxError>)
    requires Input(ts)
    ensures Good(ts, r)
    decreases |ts|, 4
  {
    match ParseAnd(ts)
    case Err(e) => Err(e)
    case Ok(p) => OrTail(p.n, p.rest)
  }

  function OrTail(l: Node, ts: seq<Token>): (r: Result<Parsed, SyntaxError>)
    requires Input(ts) && IsCondition(l) && Clean(l)
    ensures r.Ok? ==> Input(r.value.rest) && |r.value.rest| <= |ts| && IsCondition(r.value.n) && Clean(r.value.n)
    decreases |ts|, 5
  {
    if IsOr(ts[0]) then
      match ParseAnd(Drop(ts))
      case Err(e) => Err(e)
      case Ok(p) => OrTail(Bin(Or, l, p.n), p.rest)
    else Ok(Parsed(l, ts))
  }

  function ParseAnd(ts: seq<Token>): (r: Result<Parsed, SyntaxError>)
    requires Input(ts)
    ensures Good(ts, r)
    decreases |ts|, 3
  {
    match ParseNot(ts)
    case Err(e) => Err(e)
    case Ok(p) => AndTail(p.n, p.rest)
  }

  function AndTail(l: Node, ts: seq<Token>): (r: Result<Parsed, SyntaxError>)
    requires Input(ts) && IsCondition(l) && Clean(l)
    ensures r.Ok? ==> Input(r.value.rest) && |r.value.rest| <= |ts| && IsCondition(r.value.n) && Clean(r.value.n)
    decreases |ts|, 5
  {
    if IsAnd(ts[0]) then
      match ParseNot(Drop(ts))
      case Err(e) => Err(e)
      case Ok(p) => AndTail(Bin(And, l, p.n), p.rest)
    else Ok(Parsed(l, ts))
  }

  function ParseNot(ts: seq<Token>): (r: Result<Parsed, SyntaxError>)
    requires Input(ts)
    ensures Good(ts, r)
    decreases |ts|, 2
  {
    if IsNot(ts[0]) then
      match ParseNot(Drop(ts))
      case Err(e) => Err(e)
      case Ok(p) => Ok(Parsed(Not(p.n), p.rest))
    else ParsePrimary(ts)
  }

  function ParsePrimary(ts: seq<Token>): (r: Result<Parsed, SyntaxError>)
    requires Input(ts)
    ensures Good(ts, r)
    decreases |ts|, 1
  {
    if IsOpen(ts[0]) then
      match ParseOr(Drop(ts))
      case Err(e) => Err(e)
      case Ok(p) => if p.rest[0].text != ")" then Err(ExpectedClose) else Ok(Parsed(p.n, Drop(p.rest)))
    else
      match ParseValue(ts)
      case Err(e) => Err(e)
      case Ok(p) =>
        match Compares(p.rest[0])
        case None => Ok(p)
        case Some(op) =>
          match ParseValue(Drop(p.rest))
          case Err(e) => Err(e)
          case Ok(q) => Ok(Parsed(Bin(op, p.n, q.n), q.rest))
  }

  function ParseValue(ts: seq<Token>): (r: Result<Parsed, SyntaxError>)
    requires Input(ts)
    ensures Good(ts, r) && (r.Ok? ==> IsValue(r.value.n))
    ensures r.Ok? && r.value.n == Str(")") ==> ts[0].text == ")"
    decreases |ts|, 0
  {
    var t, rest := ts[0], Drop(ts);
    match t.kind
    case Text => Ok(Parsed(Str(t.text), rest))
    case Integer => Ok(Parsed(Int(ParseInt(t.text)), rest))
    case Decimal => Ok(Parsed(Float(t.text), rest))
    case Identifier =>
      if t.text == "true" || t.text == "false" then Ok(Parsed(Bool(t.text == "true"), rest))
      else if IsOpen(rest[0]) then ParseCall(t.text, rest)
      else Ok(Parsed(Ident(t.text), rest))
    case _ => Err(UnexpectedToken)
  }

  function ParseCall(name: string, ts: seq<Token>): (r: Result<Parsed, SyntaxError>)
    requires Input(ts) && IsName(name) && IsOpen(ts[0])
    ensures Good(ts, r) && (r.Ok? ==> IsValue(r.value.n) && r.value.n.Call?)
    decreases |ts|, 0
  {
    var inside := Drop(ts);
    if inside[0].text == ")" then Ok(Parsed(Call(name, []), Drop(inside)))
    else ParseArgs(name, [], inside)
  }

  /** The arguments from `ts` on, after those in `args`. */
  function ParseArgs(name: string, args: seq<Node>, ts: seq<Token>): (r: Result<Parsed, SyntaxError>)
    requires Input(ts) && IsName(name) && IsValue(Call(name, args)) && Clean(Call(name, args))
    requires args == [] ==> ts[0].text != ")"
    ensures Good(ts, r) && (r.Ok? ==> IsValue(r.value.n) && r.value.n.Call?)
    decreases |ts|, 1
  {
    match ParseValue(ts)
    case Err(e) => Err(e)
    case Ok(p) =>
      var more := args + [p.n];
      if p.rest[0].text == "," then ParseArgs(name, more, Drop(p.rest))
      else if p.rest[0].text == ")" then Ok(Parsed(Call(name, more), Drop(p.rest)))
      else Err(ExpectedCommaOrClose)
  }

  function ParseTokens(ts: seq<Token>): Result<Node, SyntaxError>
    requires Input(ts)
  {
    match ParseOr(ts)
    case Err(e) => Err(e)
    case Ok(p) => if p.rest[0].kind != EndOfInput then Err(UnexpectedToken) else Ok(p.n)
  }

  // ---- the parser ----

  class Parser {
    const toks: seq<Token>
    var pos: nat

    ghost predicate Valid()
      reads this
    {
      pos < |toks| && Input(toks[pos..])
    }

    ghost function Rest(): seq<Token>
      requires Valid()
      reads this
      ensures Input(Rest())
    {
      toks[pos..]
    }

    constructor (toks: seq<Token>)
      requires Input(toks)
      ensures Valid() && this.toks == toks && Rest() == toks
    {
      this.toks := toks;
      pos := 0;
      assert toks[0..] == toks;
    }

    /** Where a method has got to, given what the grammar says about the input it started on. */
    ghost predicate Follows(expected: Result<Parsed, SyntaxError>, r: Result<Node, SyntaxError>)
      requires Valid()
      reads this
    {
      match expected
      case Ok(p) => r == Ok(p.n) && Rest() == p.rest
      case Err(e) => r == Err(e)
    }

    method Peek() returns (t: Token)
      requires Valid()
      ensures t == Rest()[0]
    {
      t := toks[pos];
    }

    method Next() returns (t: Token)
      requires Valid()
      modifies this
      ensures Valid() && t == old(Rest())[0] && Rest() == Drop(old(Rest()))
      ensures t.kind != EndOfInput ==> pos == old(pos) + 1
    {
      t := toks[pos];
      assert toks[pos..][0] == t;
      if pos < |toks| - 1 {
        assert toks[pos..][1..] == toks[pos + 1..];
        pos := pos + 1;
      }
    }

    method Or() returns (r: Result<Node, SyntaxError>)
      requires Valid()
      modifies this
      ensures Valid() && pos >= old(pos) && Follows(ParseOr(old(Rest())), r)
      decreases |toks| - pos, 4
    {
      r := this.And();
      if r.Err? {
        return;
      }
      ghost var start := ParseOr(old(Rest()));
      var l := r.value;
      var t := Peek();
      while IsOr(t)
        invariant Valid() && pos > old(pos) && t == Rest()[0]
        invariant IsCondition(l) && Clean(l) && start == OrTail(l, Rest())
        decreases |toks| - pos
      {
        t := Next();
        r := this.And();
        if r.Err? {
          return;
        }
        l := Bin(Op.Or, l, r.value);
        t := Peek();
      }
      r := Ok(l);
    }

    method And() returns (r: Result<Node, SyntaxError>)
      requires Valid()
      modifies this
      ensures Valid() && pos >= old(pos) && (r.Ok? ==> pos > old(pos)) && Follows(ParseAnd(old(Rest())), r)
      decreases |toks| - pos, 3
    {
      r := this.Not();
      if r.Err? {
        return;
      }
      ghost var start := ParseAnd(old(Rest()));
      var l := r.value;
      var t := Peek();
      while IsAnd(t)
        invariant Valid() && pos > old(pos) && t == Rest()[0]
        invariant IsCondition(l) && Clean(l) && start == AndTail(l, Rest())
        decreases |toks| - pos
      {
        t := Next();
        r := this.Not();
        if r.Err? {
          return;
        }
        l := Bin(Op.And, l, r.value);
        t := Peek();
      }
      r := Ok(l);
    }

    method Not() returns (r: Result<Node, SyntaxError>)
      requires Valid()
      modifies this
      ensures Valid() && pos >= old(pos) && (r.Ok? ==> pos > old(pos)) && Follows(ParseNot(old(Rest())), r)
      decreases |toks| - pos, 2
    {
      var t := Peek();
      if IsNot(t) {
        t := Next();
        r := this.Not();
        if r.Ok? {
          r := Ok(Node.Not(r.value));
        }
      } else {
        r := Primary();
      }
    }

    method Primary() returns (r: Result<Node, SyntaxError>)
      requires Valid()
      modifies this
      ensures Valid() && pos >= old(pos) && (r.Ok? ==> pos > old(pos)) && Follows(ParsePrimary(old(Rest())), r)
      decreases |toks| - pos, 1
    {
      var t := Peek();
      if IsOpen(t) {
        t := Next();
        r := this.Or();
        if r.Ok? {
          t := Peek();
          if t.text != ")" {
            return Err(ExpectedClose);
          }
          t := Next();
        }
        return;
      }
      r := Value();
      if r.Err? {
        return;
      }
      t := Peek();
      var op := Compares(t);
      if op.Some? {
        var l := r.value;
        t := Next();
        r := Value();
        if r.Ok? {
          r := Ok(Bin(op.value, l, r.value));
        }
      }
    }

    method Value() returns (r: Result<Node, SyntaxError>)
      requires Valid()
      modifies this
      ensures Valid() && pos >= old(pos) && (r.Ok? ==> pos > old(pos)) && Follows(ParseValue(old(Rest())), r)
      decreases |toks| - pos, 0
    {
      var t := Next();
      match t.kind
      case Text => r := Ok(Str(t.text));
      case Integer => r := Ok(Int(ParseInt(t.text)));
      case Decimal => r := Ok(Float(t.text));
      case Identifier =>
        if t.text == "true" || t.text == "false" {
          return Ok(Bool(t.text == "true"));
        }
        var next := Peek();
        if IsOpen(next) {
          r := this.Call(t.text);
        } else {
          r := Ok(Ident(t.text));
        }
      case _ => r := Err(UnexpectedToken);
    }

    method Call(name: string) returns (r: Result<Node, SyntaxError>)
      requires Valid() && IsName(name) && IsOpen(Rest()[0])
      modifies this
      ensures Valid() && pos > old(pos) && Follows(ParseCall(name, old(Rest())), r)
      decreases |toks| - pos, 0
    {
      var t := Next();
      t := Peek();
      if t.text == ")" {
        t := Next();
        return Ok(Node.Call(name, []));
      }
      r := Args(name);
    }

    method Args(name: string) returns (r: Result<Node, SyntaxError>)
      requires Valid() && IsName(name) && Rest()[0].text != ")"
      modifies this
      ensures Valid() && pos >= old(pos) && Follows(ParseArgs(name, [], old(Rest())), r)
      decreases |toks| - pos, 1
    {
      ghost var expected := ParseArgs(name, [], Rest());
      var t;
      var args: seq<Node> := [];
      while true
        invariant Valid() && pos >= old(pos)
        invariant IsValue(Node.Call(name, args)) && Clean(Node.Call(name, args)) && (args == [] ==> Rest()[0].text != ")")
        invariant expected == ParseArgs(name, args, Rest())
        decreases |toks| - pos
      {
        r := Value();
        if r.Err? {
          return;
        }
        OneMore(name, args, r.value);
        args := args + [r.value];
        t := Peek();
        if t.text == "," {
          t := Next();
        } else if t.text == ")" {
          t := Next();
          return Ok(Node.Call(name, args));
        } else {
          return Err(ExpectedCommaOrClose);
        }
      }
    }
  }

  lemma OneMore(name: string, args: seq<Node>, v: Node)
    requires IsValue(Call(name, args)) && Clean(Call(name, args)) && IsValue(v) && Clean(v) && (args == [] ==> v != Str(")"))
    ensures IsValue(Call(name, args + [v])) && Clean(Call(name, args + [v]))
  {
  }

  /** Every token the lexer makes is one the parser can take. */
  lemma {:induction false} LexedInput(s: string)
    requires Tokens(s).Ok?
    ensures Input(Tokens(s).value)
    decreases |s|
  {
    if s == "" {
    } else if IsSpace(s[0]) {
      LexedInput(s[1..]);
    } else if s[0] == '(' || s[0] == ')' || s[0] == ',' {
      LexedInput(s[1..]);
    } else if s[0] == '=' || s[0] == '!' || s[0] == '<' || s[0] == '>' {
      if |s| > 1 && s[1] == '=' {
        LexedInput(s[2..]);
      } else {
        LexedInput(s[1..]);
      }
    } else if s[0] == '"' {
      LexedInput(Unquote(s[1..]).value.rest);
    } else if StartsNumber(s) {
      var n := NumberLength(s);
      NumberIsLexed(s);
      LexedInput(s[n..]);
    } else {
      LexedInput(s[Run(s, IsIdentPart)..]);
    }
  }

  lemma NumberIsLexed(s: string)
    requires StartsNumber(s)
    ensures Lexed(NumberToken(s[..NumberLength(s)]))
  {
    var n := NumberLength(s);
    if s[0] == '-' {
      assert forall i :: 1 <= i < n ==> s[i] == s[1..][i - 1];
      assert Run(s[1..], IsNumberPart) > 0;
    } else {
      assert Run(s, IsNumberPart) > 0;
    }
  }

  /** The tree of a filter's source, as the lexer and the grammar give it. */
  function Parse(s: string): (r: Result<Node, SyntaxError>)
    ensures r.Ok? ==> IsCondition(r.value) && Clean(r.value)
  {
    match Tokens(s)
    case Err(e) => Err(e)
    case Ok(ts) => LexedInput(s); ParseTokens(ts)
  }

  method ParseFilter(s: string) returns (r: Result<Node, SyntaxError>)
    ensures r == Parse(s)
  {
    var ts := Lex(s);
    if ts.Err? {
      return Err(ts.error);
    }
    LexedInput(s);
    var p := new Parser(ts.value);
    r := p.Or();
    if r.Ok? {
      var t := p.Peek();
      if t.kind != EndOfInput {
        return Err(UnexpectedToken);
      }
    }
  }
}
