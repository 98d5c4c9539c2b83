/** The grammar of filters, as the ways a tree can be written: with or without needless parentheses.
    The parser accepts exactly these (internal/logfilter/parse.go). */
module FilterSyntax {
  import opened Wrappers
  import opened FilterLexer
  import opened FilterParser

  /** A written condition, token by token. Closing brackets and commas are told by their text alone, so
      the strings `)` and `,` will do. */
  datatype Written =
    | Either(l: Written, r: Written)
    | Both(l: Written, r: Written)
    | Negated(x: Written)
    | Parens(x: Written, close: Token)
    | Compared(l: Written, op: Token, r: Written)
    | Leaf(t: Token)
    | Applied(name: Token, args: Arguments)

  datatype Arguments =
    | NoArgs(close: Token)
    | LastArg(a: Written, close: Token)
    | OneArg(a: Written, comma: Token, more: Arguments)

  // ---- the tokens ----

  function Flat(w: Written, rest: seq<Token>): (ts: seq<Token>)
    ensures |ts| > |rest|
  {
    match w
    case Either(l, r) => Flat(l, [Token(Keyword, "or")] + Flat(r, rest))
    case Both(l, r) => Flat(l, [Token(Keyword, "and")] + Flat(r, rest))
    case Negated(x) => [Token(Keyword, "not")] + Flat(x, rest)
    case Parens(x, close) => [Token(Operator, "(")] + Flat(x, [close] + rest)
    case Compared(l, op, r) => Flat(l, [op] + Flat(r, rest))
    case Leaf(t) => [t] + rest
    case Applied(name, args) => [name] + ([Token(Operator, "(")] + FlatArgs(args, rest))
  }

  function FlatArgs(args: Arguments, rest: seq<Token>): (ts: seq<Token>)
    ensures |ts| > |rest|
  {
    match args
    case NoArgs(close) => [close] + rest
    case LastArg(a, close) => Flat(a, [close] + rest)
    case OneArg(a, comma, more) => Flat(a, [comma] + FlatArgs(more, rest))
  }

  // ---- what may be written ----

  function FirstOf(w: Written): Token {
    match w
    case Either(l, _) => FirstOf(l)
    case Both(l, _) => FirstOf(l)
    case Negated(_) => Token(Keyword, "not")
    case Parens(_, _) => Token(Operator, "(")
    case Compared(l, _, _) => FirstOf(l)
    case Leaf(t) => t
    case Applied(name, _) => name
  }

  /** `or` chains nest to the left, and bind weaker than `and`. */
  predicate IsOrChain(w: Written)
    decreases w, 3
  {
    match w
    case Either(l, r) => IsOrChain(l) && IsAndChain(r)
    case _ => IsAndChain(w)
  }

  predicate IsAndChain(w: Written)
    decreases w, 2
  {
    match w
    case Both(l, r) => IsAndChain(l) && IsOperand(r)
    case _ => IsOperand(w)
  }

  predicate IsOperand(w: Written)
    decreases w, 1
  {
    match w
    case Negated(x) => IsOperand(x)
    case Parens(x, close) => IsOrChain(x) && close.text == ")"
    case Compared(l, op, r) => IsTerm(l) && op.kind == Operator && op.text in {"==", "!=", "<", "<=", ">", ">="} && IsTerm(r)
    case _ => IsTerm(w)
  }

  predicate IsTerm(w: Written)
    decreases w, 0
  {
    match w
    case Leaf(t) => t.kind in {Text, Integer, Decimal, Identifier}
    case Applied(name, args) =>
      && name.kind == Identifier && name.text != "true" && name.text != "false"
      && if args.NoArgs? then args.close.text == ")" else FirstOf(args.a).text != ")" && AreArgs(args)
    case _ => false
  }

  predicate AreArgs(args: Arguments)
    decreases args, 0
  {
    match args
    case NoArgs(_) => false
    case LastArg(a, close) => IsTerm(a) && close.text == ")"
    case OneArg(a, comma, more) => IsTerm(a) && comma.text == "," && AreArgs(more)
  }

  // ---- the tree ----

  function OpOf(text: string): Op {
    if text == "==" then Eq else if text == "!=" then Ne else if text == "<" then Lt
    else if text == "<=" then Le else if text == ">" then Gt else Ge
  }

  /** A whole number beyond 64 bits stops at the bounds. */
  function Clamped(v: int): int {
    if v > 9223372036854775807 then 9223372036854775807 else if v < -9223372036854775808 then -9223372036854775808 else v
  }

  function LeafTree(t: Token): Node {
    match t.kind
    case Text => Str(t.text)
    case Integer => Int(Clamped(if t.text != "" && t.text[0] == '-' then 0 - DigitsValue(t.text[1..]) else DigitsValue(t.text)))
    case Decimal => Float(t.text)
    case _ => if t.text == "true" then Bool(true) else if t.text == "false" then Bool(false) else Ident(t.text)
  }

  function Tree(w: Written): Node {
    match w
    case Either(l, r) => Bin(Or, Tree(l), Tree(r))
    case Both(l, r) => Bin(And, Tree(l), Tree(r))
    case Negated(x) => Not(Tree(x))
    case Parens(x, _) => Tree(x)
    case Compared(l, op, r) => Bin(OpOf(op.text), Tree(l), Tree(r))
    case Leaf(t) => LeafTree(t)
    case Applied(name, args) => Call(name.text, Trees(args))
  }

  function Trees(args: Arguments): seq<Node> {
    match args
    case NoArgs(_) => []
    case LastArg(a, _) => [Tree(a)]
    case OneArg(a, _, more) => [Tree(a)] + Trees(more)
  }

  // ---- tokens fit to be parsed ----

  /** The lexer's tokens end with the end of input, and only there. */
  ghost predicate Ended(ts: seq<Token>) {
    Input(ts) && ts[|ts| - 1] == END && forall i :: 0 <= i < |ts| - 1 ==> ts[i].kind != EndOfInput
  }

  lemma {:induction false} EndedRest(a: seq<Token>, rest: seq<Token>)
    requires Ended(a + rest) && rest != []
    ensures Ended(rest)
  {
    if a == [] {
      assert a + rest == rest;
    } else {
      assert (a + rest)[1..] == a[1..] + rest;
      assert forall i :: 0 <= i < |a[1..] + rest| - 1 ==> (a[1..] + rest)[i] == (a + rest)[i + 1];
      EndedRest(a[1..], rest);
    }
  }

  lemma {:induction false} FlatSplits(w: Written, rest: seq<Token>) returns (a: seq<Token>)
    ensures Flat(w, rest) == a + rest
    decreases w
  {
    match w
    case Either(l, r) =>
      var b := FlatSplits(r, rest);
      var c := FlatSplits(l, [Token(Keyword, "or")] + Flat(r, rest));
      a := c + ([Token(Keyword, "or")] + b);
    case Both(l, r) =>
      var b := FlatSplits(r, rest);
      var c := FlatSplits(l, [Token(Keyword, "and")] + Flat(r, rest));
      a := c + ([Token(Keyword, "and")] + b);
    case Negated(x) =>
      var b := FlatSplits(x, rest);
      a := [Token(Keyword, "not")] + b;
    case Parens(x, close) =>
      var b := FlatSplits(x, [close] + rest);
      a := [Token(Operator, "(")] + (b + [close]);
    case Compared(l, op, r) =>
      var b := FlatSplits(r, rest);
      var c := FlatSplits(l, [op] + Flat(r, rest));
      a := c + ([op] + b);
    case Leaf(t) => a := [t];
    case Applied(name, args) =>
      var b := ArgsSplit(args, rest);
      a := [name] + ([Token(Operator, "(")] + b);
  }

  lemma {:induction false} ArgsSplit(args: Arguments, rest: seq<Token>) returns (a: seq<Token>)
    ensures FlatArgs(args, rest) == a + rest
    decreases args
  {
    match args
    case NoArgs(close) => a := [close];
    case LastArg(x, close) =>
      var b := FlatSplits(x, [close] + rest);
      a := b + [close];
    case OneArg(x, comma, more) =>
      var b := ArgsSplit(more, rest);
      var c := FlatSplits(x, [comma] + FlatArgs(more, rest));
      a := c + ([comma] + b);
  }

  lemma FlatEnds(w: Written, rest: seq<Token>)
    requires Ended(Flat(w, rest)) && rest != []
    ensures Ended(rest)
  {
    var a := FlatSplits(w, rest);
    EndedRest(a, rest);
  }

  lemma ArgsEnd(args: Arguments, rest: seq<Token>)
    requires Ended(FlatArgs(args, rest)) && rest != []
    ensures Ended(rest)
  {
    var a := ArgsSplit(args, rest);
    EndedRest(a, rest);
  }

  lemma EndedTail(t: Token, rest: seq<Token>)
    requires Ended([t] + rest) && rest != []
    ensures Ended(rest) && Drop([t] + rest) == rest
  {
    EndedRest([t], rest);
    assert ([t] + rest)[1..] == rest;
  }

  lemma {:induction false} FlatStarts(w: Written, rest: seq<Token>)
    ensures Flat(w, rest)[0] == FirstOf(w)
    decreases w
  {
    match w
    case Either(l, r) => FlatStarts(l, [Token(Keyword, "or")] + Flat(r, rest));
    case Both(l, r) => FlatStarts(l, [Token(Keyword, "and")] + Flat(r, rest));
    case Compared(l, op, r) => FlatStarts(l, [op] + Flat(r, rest));
    case Negated(_) =>
    case Parens(_, _) =>
    case Leaf(_) =>
    case Applied(_, _) =>
  }

  lemma ArgsStart(args: Arguments, rest: seq<Token>)
    ensures FlatArgs(args, rest)[0] == match args case NoArgs(close) => close case LastArg(a, _) => FirstOf(a) case OneArg(a, _, _) => FirstOf(a)
  {
    match args
    case NoArgs(_) =>
    case LastArg(a, close) => FlatStarts(a, [close] + rest);
    case OneArg(a, comma, more) => FlatStarts(a, [comma] + FlatArgs(more, rest));
  }

  lemma {:induction false} ClosesTree(w: Written)
    requires IsTerm(w) && Tree(w) == Str(")")
    ensures FirstOf(w).text == ")"
  {
  }

  // ---- whatever is written so is parsed ----

  lemma LeafParses(t: Token, rest: seq<Token>)
    requires IsTerm(Leaf(t)) && Ended([t] + rest) && rest != [] && (LeafTree(t).Ident? ==> !IsOpen(rest[0]))
    ensures ParseValue([t] + rest) == Ok(Parsed(LeafTree(t), rest))
  {
    EndedTail(t, rest);
  }

  lemma {:induction false} TermParses(w: Written, rest: seq<Token>)
    requires IsTerm(w) && Ended(Flat(w, rest)) && rest != [] && (Tree(w).Ident? ==> !IsOpen(rest[0]))
    ensures ParseValue(Flat(w, rest)) == Ok(Parsed(Tree(w), rest))
    decreases w, 1
  {
    if w.Leaf? {
      LeafParses(w.t, rest);
    } else {
      var after := [Token(Operator, "(")] + FlatArgs(w.args, rest);
      EndedTail(w.name, after);
      ApplicationParses(w.name.text, w.args, rest);
    }
  }

  lemma {:induction false} ApplicationParses(name: string, args: Arguments, rest: seq<Token>)
    requires IsName(name) && rest != [] && Ended([Token(Operator, "(")] + FlatArgs(args, rest))
    requires args.NoArgs? ==> args.close.text == ")"
    requires !args.NoArgs? ==> AreArgs(args) && FirstOf(args.a).text != ")"
    ensures ParseCall(name, [Token(Operator, "(")] + FlatArgs(args, rest)) == Ok(Parsed(Call(name, Trees(args)), rest))
    decreases args, 2
  {
    EndedTail(Token(Operator, "("), FlatArgs(args, rest));
    ArgsStart(args, rest);
    if args.NoArgs? {
      EndedTail(args.close, rest);
    } else {
      ArgumentsParse(name, [], args, rest);
      assert [] + Trees(args) == Trees(args);
    }
  }

  lemma {:induction false} ArgumentsParse(name: string, done: seq<Node>, args: Arguments, rest: seq<Token>)
    requires IsName(name) && IsValue(Call(name, done)) && Clean(Call(name, done)) && rest != []
    requires AreArgs(args) && Ended(FlatArgs(args, rest)) && (done == [] ==> FirstOf(args.a).text != ")")
    ensures done == [] ==> FlatArgs(args, rest)[0].text != ")"
    ensures ParseArgs(name, done, FlatArgs(args, rest)) == Ok(Parsed(Call(name, done + Trees(args)), rest))
    decreases args, 1
  {
    ArgsStart(args, rest);
    var a := args.a;
    var after := if args.LastArg? then [args.close] + rest else [args.comma] + FlatArgs(args.more, rest);
    FlatEnds(a, after);
    TermParses(a, after);
    ArgIsFine(a, done);
    MoreArgs(name, done, Tree(a));
    if args.LastArg? {
      EndedTail(args.close, rest);
      assert Trees(args) == [Tree(a)];
      ArgsClose(name, done, Flat(a, after), Tree(a), rest);
    } else {
      var others := FlatArgs(args.more, rest);
      EndedTail(args.comma, others);
      ArgumentsParse(name, done + [Tree(a)], args.more, rest);
      Associate(done, Tree(a), Trees(args.more));
      ArgsGoOn(name, done, Flat(a, after), Tree(a), others);
    }
  }

  lemma ArgsGoOn(name: string, done: seq<Node>, ts: seq<Token>, n: Node, others: seq<Token>)
    requires Input(ts) && IsName(name) && IsValue(Call(name, done)) && Clean(Call(name, done)) && (done == [] ==> ts[0].text != ")")
    requires ParseValue(ts).Ok? && ParseValue(ts).value.n == n
    requires var rest := ParseValue(ts).value.rest; rest[0].text == "," && Drop(rest) == others
    requires IsValue(Call(name, done + [n])) && Clean(Call(name, done + [n])) && Input(others)
    ensures ParseArgs(name, done, ts) == ParseArgs(name, done + [n], others)
  {
  }

  lemma ArgsClose(name: string, done: seq<Node>, ts: seq<Token>, n: Node, others: seq<Token>)
    requires Input(ts) && IsName(name) && IsValue(Call(name, done)) && Clean(Call(name, done)) && (done == [] ==> ts[0].text != ")")
    requires ParseValue(ts).Ok? && ParseValue(ts).value.n == n
    requires var rest := ParseValue(ts).value.rest; rest[0].text == ")" && Drop(rest) == others
    ensures ParseArgs(name, done, ts) == Ok(Parsed(Call(name, done + [n]), others))
  {
  }

  lemma ArgIsFine(a: Written, done: seq<Node>)
    requires IsTerm(a) && (done == [] ==> FirstOf(a).text != ")")
    ensures done == [] ==> Tree(a) != Str(")")
  {
    if Tree(a) == Str(")") {
      ClosesTree(a);
    }
  }

  lemma MoreArgs(name: string, done: seq<Node>, n: Node)
    requires IsValue(Call(name, done)) && Clean(Call(name, done)) && IsValue(n) && Clean(n) && (done == [] ==> n != Str(")"))
    ensures IsValue(Call(name, done + [n])) && Clean(Call(name, done + [n]))
  {
  }

  lemma Associate<T>(done: seq<T>, x: T, more: seq<T>)
    ensures (done + [x]) + more == done + ([x] + more)
  {
  }

  /** The token cannot continue a comparison or a term. */
  predicate StopsThere(t: Token) {
    !IsOpen(t) && !(t.kind == Operator && t.text in {"==", "!=", "<", "<=", ">", ">="})
  }

  lemma ComparesIsListed(t: Token)
    ensures Compares(t).Some? <==> t.kind == Operator && t.text in {"==", "!=", "<", "<=", ">", ">="}
    ensures Compares(t).Some? ==> Compares(t).value == OpOf(t.text)
  {
  }

  lemma {:induction false} OrChainParses(w: Written, rest: seq<Token>)
    requires IsOrChain(w) && rest != [] && Ended(Flat(w, rest)) && StopsThere(rest[0]) && !IsAnd(rest[0])
    ensures Ended(rest) && IsCondition(Tree(w)) && Clean(Tree(w))
    ensures ParseOr(Flat(w, rest)) == OrTail(Tree(w), rest)
    decreases w, 3
  {
    FlatEnds(w, rest);
    if w.Either? {
      var right := Flat(w.r, rest);
      var after := [Token(Keyword, "or")] + right;
      FlatEnds(w.l, after);
      EndedTail(Token(Keyword, "or"), right);
      OrChainParses(w.l, after);
      AndChainParses(w.r, rest);
    } else {
      AndChainParses(w, rest);
    }
  }

  lemma {:induction false} AndChainParses(w: Written, rest: seq<Token>)
    requires IsAndChain(w) && rest != [] && Ended(Flat(w, rest)) && StopsThere(rest[0])
    ensures Ended(rest) && IsCondition(Tree(w)) && Clean(Tree(w))
    ensures ParseAnd(Flat(w, rest)) == AndTail(Tree(w), rest)
    decreases w, 2
  {
    FlatEnds(w, rest);
    if w.Both? {
      var right := Flat(w.r, rest);
      var after := [Token(Keyword, "and")] + right;
      FlatEnds(w.l, after);
      EndedTail(Token(Keyword, "and"), right);
      AndChainParses(w.l, after);
      OperandParses(w.r, rest);
    } else {
      OperandParses(w, rest);
    }
  }

  lemma {:induction false} OperandParses(w: Written, rest: seq<Token>)
    requires IsOperand(w) && rest != [] && Ended(Flat(w, rest)) && StopsThere(rest[0])
    ensures Ended(rest) && IsCondition(Tree(w)) && Clean(Tree(w))
    ensures ParseNot(Flat(w, rest)) == Ok(Parsed(Tree(w), rest))
    decreases w, 1
  {
    FlatEnds(w, rest);
    if w.Negated? {
      EndedTail(Token(Keyword, "not"), Flat(w.x, rest));
      OperandParses(w.x, rest);
    } else if w.Parens? {
      ParensParse(w, rest);
    } else {
      ComparisonParses(w, rest);
    }
  }

  lemma {:induction false} ParensParse(w: Written, rest: seq<Token>)
    requires w.Parens? && IsOperand(w) && rest != [] && Ended(Flat(w, rest))
    ensures ParseNot(Flat(w, rest)) == Ok(Parsed(Tree(w), rest))
    decreases w, 0
  {
    var after := [w.close] + rest;
    var inside := Flat(w.x, after);
    EndedTail(Token(Operator, "("), inside);
    FlatEnds(w.x, after);
    EndedTail(w.close, rest);
    OrChainParses(w.x, after);
    assert OrTail(Tree(w.x), after) == Ok(Parsed(Tree(w.x), after));
    assert ParsePrimary([Token(Operator, "(")] + inside) == Ok(Parsed(Tree(w.x), rest));
  }

  lemma TermStarts(w: Written)
    requires IsTerm(w)
    ensures FirstOf(w).kind != Operator && FirstOf(w).kind != Keyword
  {
  }

  lemma ComparisonParses(w: Written, rest: seq<Token>)
    requires IsOperand(w) && !w.Negated? && !w.Parens? && rest != [] && Ended(Flat(w, rest)) && StopsThere(rest[0])
    ensures ParseNot(Flat(w, rest)) == Ok(Parsed(Tree(w), rest))
  {
    FlatStarts(w, rest);
    ComparesIsListed(rest[0]);
    if w.Compared? {
      var right := Flat(w.r, rest);
      FlatEnds(w.l, [w.op] + right);
      EndedTail(w.op, right);
      ComparesIsListed(w.op);
      TermStarts(w.l);
      TermParses(w.l, [w.op] + right);
      TermParses(w.r, rest);
    } else {
      TermStarts(w);
      TermParses(w, rest);
    }
  }

  // ---- whatever is parsed is written so ----

  lemma {:induction false} ValueIsTerm(ts: seq<Token>) returns (w: Written)
    requires Ended(ts) && ParseValue(ts).Ok?
    ensures var p := ParseValue(ts).value; IsTerm(w) && Tree(w) == p.n && ts == Flat(w, p.rest) && FirstOf(w) == ts[0]
    decreases |ts|, 0
  {
    assert |ts| > 1 && ts == [ts[0]] + ts[1..];
    EndedRest([ts[0]], ts[1..]);
    if ts[0].kind == Identifier && ts[0].text != "true" && ts[0].text != "false" && IsOpen(ts[1]) {
      var args := CallIsApplied(ts[0].text, ts[1..]);
      w := Applied(ts[0], args);
    } else {
      w := Leaf(ts[0]);
    }
  }

  lemma {:induction false} CallIsApplied(name: string, ts: seq<Token>) returns (args: Arguments)
    requires Ended(ts) && IsName(name) && IsOpen(ts[0]) && ParseCall(name, ts).Ok?
    ensures var p := ParseCall(name, ts).value;
            && p.n == Call(name, Trees(args)) && ts == [Token(Operator, "(")] + FlatArgs(args, p.rest)
            && if args.NoArgs? then args.close.text == ")" else AreArgs(args) && FirstOf(args.a).text != ")"
    decreases |ts|, 0
  {
    assert |ts| > 1 && ts == [ts[0]] + ts[1..];
    EndedRest([ts[0]], ts[1..]);
    var inside := ts[1..];
    if inside[0].text == ")" {
      assert |inside| > 1 && inside == [inside[0]] + inside[1..];
      args := NoArgs(inside[0]);
    } else {
      args := ArgsAreArgs(name, [], inside);
      assert [] + Trees(args) == Trees(args);
    }
  }

  lemma {:induction false} ArgsAreArgs(name: string, done: seq<Node>, ts: seq<Token>) returns (args: Arguments)
    requires Ended(ts) && IsName(name) && IsValue(Call(name, done)) && Clean(Call(name, done)) && (done == [] ==> ts[0].text != ")")
    requires ParseArgs(name, done, ts).Ok?
    ensures var p := ParseArgs(name, done, ts).value;
            p.n == Call(name, done + Trees(args)) && ts == FlatArgs(args, p.rest) && AreArgs(args) && FirstOf(args.a) == ts[0]
    decreases |ts|, 1
  {
    var a := ValueIsTerm(ts);
    var p := ParseValue(ts).value;
    FlatEnds(a, p.rest);
    SplitsOff(p.rest);
    ArgIsFine(a, done);
    MoreArgs(name, done, p.n);
    if p.rest[0].text == "," {
      ArgsGoOn(name, done, ts, p.n, p.rest[1..]);
      var others := ArgsAreArgs(name, done + [p.n], p.rest[1..]);
      args := OneArg(a, p.rest[0], others);
      Associate(done, p.n, Trees(others));
    } else {
      args := LastArg(a, p.rest[0]);
    }
  }

  lemma SplitsOff(ts: seq<Token>)
    requires Ended(ts) && ts[0] != END
    ensures |ts| > 1 && ts == [ts[0]] + ts[1..] && Ended(ts[1..]) && Drop(ts) == ts[1..]
  {
    assert |ts| > 1 && ts == [ts[0]] + ts[1..];
    EndedRest([ts[0]], ts[1..]);
  }

  lemma {:induction false} OrIsChain(ts: seq<Token>) returns (w: Written)
    requires Ended(ts) && ParseOr(ts).Ok?
    ensures var p := ParseOr(ts).value; IsOrChain(w) && Tree(w) == p.n && ts == Flat(w, p.rest)
    decreases |ts|, 4
  {
    var first := AndIsChain(ts);
    var p := ParseAnd(ts).value;
    FlatEnds(first, p.rest);
    w := OrTailIsChain(first, p.rest);
  }

  lemma {:induction false} OrTailIsChain(first: Written, ts: seq<Token>) returns (w: Written)
    requires Ended(ts) && IsOrChain(first) && IsCondition(Tree(first)) && Clean(Tree(first)) && OrTail(Tree(first), ts).Ok?
    ensures var p := OrTail(Tree(first), ts).value; IsOrChain(w) && Tree(w) == p.n && Flat(first, ts) == Flat(w, p.rest)
    decreases |ts|, 5
  {
    if IsOr(ts[0]) {
      assert |ts| > 1 && ts == [ts[0]] + ts[1..];
      EndedRest([ts[0]], ts[1..]);
      var second := AndIsChain(ts[1..]);
      var p := ParseAnd(ts[1..]).value;
      FlatEnds(second, p.rest);
      w := OrTailIsChain(Either(first, second), p.rest);
    } else {
      w := first;
    }
  }

  lemma {:induction false} AndIsChain(ts: seq<Token>) returns (w: Written)
    requires Ended(ts) && ParseAnd(ts).Ok?
    ensures var p := ParseAnd(ts).value; IsAndChain(w) && IsOrChain(w) && Tree(w) == p.n && ts == Flat(w, p.rest)
    decreases |ts|, 3
  {
    var first := NotIsOperand(ts);
    var p := ParseNot(ts).value;
    FlatEnds(first, p.rest);
    w := AndTailIsChain(first, p.rest);
  }

  lemma {:induction false} AndTailIsChain(first: Written, ts: seq<Token>) returns (w: Written)
    requires Ended(ts) && IsAndChain(first) && IsCondition(Tree(first)) && Clean(Tree(first)) && AndTail(Tree(first), ts).Ok?
    ensures var p := AndTail(Tree(first), ts).value; IsAndChain(w) && IsOrChain(w) && Tree(w) == p.n && Flat(first, ts) == Flat(w, p.rest)
    decreases |ts|, 5
  {
    if IsAnd(ts[0]) {
      assert |ts| > 1 && ts == [ts[0]] + ts[1..];
      EndedRest([ts[0]], ts[1..]);
      var second := NotIsOperand(ts[1..]);
      var p := ParseNot(ts[1..]).value;
      FlatEnds(second, p.rest);
      w := AndTailIsChain(Both(first, second), p.rest);
    } else {
      w := first;
      assert !w.Either?;
    }
  }

  lemma {:induction false} NotIsOperand(ts: seq<Token>) returns (w: Written)
    requires Ended(ts) && ParseNot(ts).Ok?
    ensures var p := ParseNot(ts).value; IsOperand(w) && IsAndChain(w) && Tree(w) == p.n && ts == Flat(w, p.rest)
    decreases |ts|, 2
  {
    if IsNot(ts[0]) {
      assert |ts| > 1 && ts == [ts[0]] + ts[1..];
      EndedRest([ts[0]], ts[1..]);
      var x := NotIsOperand(ts[1..]);
      w := Negated(x);
    } else {
      w := PrimaryIsOperand(ts);
    }
  }

  lemma {:induction false} PrimaryIsOperand(ts: seq<Token>) returns (w: Written)
    requires Ended(ts) && ParsePrimary(ts).Ok?
    ensures var p := ParsePrimary(ts).value; IsOperand(w) && IsAndChain(w) && Tree(w) == p.n && ts == Flat(w, p.rest)
    decreases |ts|, 1
  {
    if IsOpen(ts[0]) {
      SplitsOff(ts);
      var x := OrIsChain(ts[1..]);
      var p := ParseOr(ts[1..]).value;
      FlatEnds(x, p.rest);
      SplitsOff(p.rest);
      w := Parens(x, p.rest[0]);
    } else {
      w := ComparisonIsOperand(ts);
    }
  }

  lemma ComparisonIsOperand(ts: seq<Token>) returns (w: Written)
    requires Ended(ts) && !IsOpen(ts[0]) && ParsePrimary(ts).Ok?
    ensures var p := ParsePrimary(ts).value; IsOperand(w) && IsAndChain(w) && Tree(w) == p.n && ts == Flat(w, p.rest)
  {
    var l := ValueIsTerm(ts);
    var p := ParseValue(ts).value;
    FlatEnds(l, p.rest);
    ComparesIsListed(p.rest[0]);
    if Compares(p.rest[0]).Some? {
      SplitsOff(p.rest);
      var r := ValueIsTerm(p.rest[1..]);
      w := Compared(l, p.rest[0], r);
    } else {
      w := l;
    }
  }

  // ---- exactly ----

  /** The parser reads a tree from the tokens exactly if they are a way of writing it. */
  lemma ParsesIff(ts: seq<Token>, n: Node)
    requires Ended(ts)
    ensures ParseTokens(ts) == Ok(n) <==> exists w :: IsOrChain(w) && Tree(w) == n && Flat(w, [END]) == ts
  {
    if ParseTokens(ts) == Ok(n) {
      var w := OrIsChain(ts);
      var p := ParseOr(ts).value;
      FlatEnds(w, p.rest);
      OnlyTheEnd(p.rest);
    }
    if w :| IsOrChain(w) && Tree(w) == n && Flat(w, [END]) == ts {
      OrChainParses(w, [END]);
    }
  }

  lemma OnlyTheEnd(rest: seq<Token>)
    requires Ended(rest) && rest[0].kind == EndOfInput
    ensures rest == [END]
  {
  }
}
